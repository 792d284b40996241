/**
  The dispatch rendezvous of the worker pool: submitters, one dispatcher, any number of worker
  run loops advertising claims, joins and leaves, and both kinds of shutdown. A run loop is
  identified by its join, because every join makes a new input channel; the claim it posts
  carries that channel.
 */
module PoolDispatch {

  /** Where a worker's run loop stands. */
  datatype Phase =
    | Top                // about to offer a claim
    | Posted             // claim in the channel, not yet receiving (the started hook runs here)
    | Parked             // receiving on its input
    | Running(job: nat)
    | Exited

  datatype Join = Join(worker: nat, phase: Phase, cancelled: bool, got: seq<nat>)

  /** Where the dispatcher stands; Pulled and Sending also hold the claim of a join. */
  datatype Hand =
    | Idle
    | Holding(job: nat)
    | Pulled(job: nat, join: nat)
    | Sending(job: nat, join: nat)
    | Returned

  datatype Outcome = Handed(job: nat, join: nat) | Reported(job: nat)

  datatype State = State(
    size: nat,                // claims buffer and subscriber cap
    room: nat,                // backlog capacity
    waiting: multiset<nat>,   // Submit calls past the reject check
    backlog: seq<nat>,
    hand: Hand,
    claims: seq<nat>,
    subscribers: set<nat>,
    joins: seq<Join>,
    reject: bool,
    shutdown: bool,
    ctxDone: bool,
    returnedLive: bool,       // the dispatcher returned before the context was done
    accepted: seq<nat>,       // jobs whose Submit returned nil, in order
    before: nat,              // how many of them were accepted before shutdown was closed
    outcomes: seq<Outcome>,   // what became of the jobs taken, in order
    discarded: set<nat>)      // joins whose pulled claim the dispatcher threw away

  datatype Action =
    | BeginSubmit(job: nat) | Accept(job: nat) | GiveUp(job: nat)
    | Take | Return
    | Pull | Alive | NotAlive | HandOver | SendTimeout | Report
    | JoinWorker(worker: nat) | Post(join: nat) | Park(join: nat) | EndJob(join: nat) | Exit(join: nat)
    | Unsubscribe(join: nat) | CancelJoin(join: nat)
    | Reject | CloseShutdown | CancelPool

  function Init(size: nat, room: nat): State {
    State(size, room, multiset{}, [], Idle, [], {}, [], false, false, false, false, [], 0, [], {})
  }

  predicate InPhase(joins: seq<Join>, j: nat, phase: Phase) {
    j < |joins| && joins[j].phase == phase
  }

  /** No earlier run loop of this worker is live. */
  ghost predicate AllExited(joins: seq<Join>, worker: nat) {
    forall j :: 0 <= j < |joins| && joins[j].worker == worker ==> joins[j].phase == Exited
  }

  ghost predicate Enabled(s: State, a: Action) {
    match a
    case BeginSubmit(_) => !s.reject
    case Accept(job) => job in s.waiting && |s.backlog| < s.room
    case GiveUp(job) => job in s.waiting
    case Take => s.hand == Idle && s.backlog != []
    case Return => s.hand == Idle && (s.ctxDone || (s.shutdown && s.backlog == []))
    case Pull => s.hand.Holding? && s.claims != []
    case Alive => s.hand.Pulled? && s.hand.join < |s.joins| && s.joins[s.hand.join].worker in s.subscribers
    case NotAlive => s.hand.Pulled? && s.hand.join < |s.joins| && s.joins[s.hand.join].worker !in s.subscribers
    case HandOver => s.hand.Sending? && InPhase(s.joins, s.hand.join, Parked)
    case SendTimeout => s.hand.Sending?
    case Report => s.hand.Holding?
    case JoinWorker(worker) =>
      !s.ctxDone && |s.subscribers| < s.size && AllExited(s.joins, worker)
    case Post(j) => InPhase(s.joins, j, Top) && |s.claims| < s.size
    case Park(j) => InPhase(s.joins, j, Posted)
    case EndJob(j) => j < |s.joins| && s.joins[j].phase.Running?
    case Exit(j) =>
      && (InPhase(s.joins, j, Top) || InPhase(s.joins, j, Parked))
      && (s.joins[j].cancelled || s.ctxDone)
    case Unsubscribe(j) => j < |s.joins|
    case CancelJoin(j) => j < |s.joins| && s.joins[j].worker !in s.subscribers
    case Reject => true
    case CloseShutdown => s.reject && !s.shutdown
    case CancelPool => true
  }

  function Move(joins: seq<Join>, j: nat, phase: Phase): seq<Join>
    requires j < |joins|
  {
    joins[j := joins[j].(phase := phase)]
  }

  function Give(joins: seq<Join>, j: nat, job: nat): seq<Join>
    requires j < |joins|
  {
    joins[j := joins[j].(phase := Running(job), got := joins[j].got + [job])]
  }

  function Apply(s: State, a: Action): State
    requires Enabled(s, a)
  {
    match a
    case BeginSubmit(job) => s.(waiting := s.waiting + multiset{job})
    case Accept(job) =>
      s.(waiting := s.waiting - multiset{job}, backlog := s.backlog + [job], accepted := s.accepted + [job])
    case GiveUp(job) => s.(waiting := s.waiting - multiset{job})
    case Take => s.(hand := Holding(s.backlog[0]), backlog := s.backlog[1..])
    case Return => s.(hand := Returned, returnedLive := !s.ctxDone)
    case Pull => s.(hand := Pulled(s.hand.job, s.claims[0]), claims := s.claims[1..])
    case Alive => s.(hand := Sending(s.hand.job, s.hand.join))
    case NotAlive => s.(hand := Holding(s.hand.job), discarded := s.discarded + {s.hand.join})
    case HandOver =>
      s.(hand := Idle, joins := Give(s.joins, s.hand.join, s.hand.job),
         outcomes := s.outcomes + [Handed(s.hand.job, s.hand.join)])
    case SendTimeout => s.(hand := Holding(s.hand.job), discarded := s.discarded + {s.hand.join})
    case Report => s.(hand := Idle, outcomes := s.outcomes + [Reported(s.hand.job)])
    case JoinWorker(worker) =>
      s.(subscribers := s.subscribers + {worker}, joins := s.joins + [Join(worker, Top, false, [])])
    case Post(j) => s.(joins := Move(s.joins, j, Posted), claims := s.claims + [j])
    case Park(j) => s.(joins := Move(s.joins, j, Parked))
    case EndJob(j) => s.(joins := Move(s.joins, j, Top))
    case Exit(j) => s.(joins := Move(s.joins, j, Exited))
    case Unsubscribe(j) => s.(subscribers := s.subscribers - {s.joins[j].worker})
    case CancelJoin(j) => s.(joins := s.joins[j := s.joins[j].(cancelled := true)])
    case Reject => s.(reject := true)
    case CloseShutdown => s.(shutdown := true, before := |s.accepted|)
    case CancelPool => s.(ctxDone := true)
  }

  ghost predicate CanRun(s: State, run: seq<Action>)
    decreases |run|
  {
    run == [] || (Enabled(s, run[0]) && CanRun(Apply(s, run[0]), run[1..]))
  }

  ghost function After(s: State, run: seq<Action>): State
    requires CanRun(s, run)
    decreases |run|
  {
    if run == [] then s else After(Apply(s, run[0]), run[1..])
  }

  // ---------- Handoff: first in, first out, each job once ----------

  function Jobs(outcomes: seq<Outcome>): seq<nat> {
    seq(|outcomes|, i requires 0 <= i < |outcomes| => outcomes[i].job)
  }

  function InHand(hand: Hand): seq<nat> {
    if hand.Idle? || hand.Returned? then [] else [hand.job]
  }

  /** The jobs a join was handed, in order. */
  function HandedTo(outcomes: seq<Outcome>, j: nat): seq<nat> {
    if outcomes == [] then []
    else
      var last := outcomes[|outcomes| - 1];
      HandedTo(outcomes[..|outcomes| - 1], j) + if last == Handed(last.job, j) then [last.job] else []
  }

  /** The jobs accepted are those with an outcome, the one in hand, and the backlog, in this order. */
  ghost predicate Fifo(accepted: seq<nat>, outcomes: seq<Outcome>, hand: Hand, backlog: seq<nat>) {
    accepted == Jobs(outcomes) + InHand(hand) + backlog
  }

  /** What each run loop received is what the outcomes say it was handed. */
  ghost predicate Logged(joins: seq<Join>, outcomes: seq<Outcome>) {
    && (forall j: nat :: HandedTo(outcomes, j) == if j < |joins| then joins[j].got else [])
    && (forall j: nat :: j < |joins| && joins[j].phase.Running? ==>
          joins[j].got != [] && joins[j].got[|joins[j].got| - 1] == joins[j].phase.job)
  }

  lemma JobsAppend(outcomes: seq<Outcome>, o: Outcome)
    ensures Jobs(outcomes + [o]) == Jobs(outcomes) + [o.job]
  {
  }

  lemma HandedToAppend(outcomes: seq<Outcome>, o: Outcome, j: nat)
    ensures HandedTo(outcomes + [o], j) == HandedTo(outcomes, j) + if o == Handed(o.job, j) then [o.job] else []
  {
    assert (outcomes + [o])[..|outcomes|] == outcomes;
  }

  lemma FifoAccept(accepted: seq<nat>, outcomes: seq<Outcome>, hand: Hand, backlog: seq<nat>, job: nat)
    requires Fifo(accepted, outcomes, hand, backlog)
    ensures Fifo(accepted + [job], outcomes, hand, backlog + [job])
  {
  }

  lemma FifoTake(accepted: seq<nat>, outcomes: seq<Outcome>, backlog: seq<nat>)
    requires Fifo(accepted, outcomes, Idle, backlog) && backlog != []
    ensures Fifo(accepted, outcomes, Holding(backlog[0]), backlog[1..])
  {
    assert backlog == [backlog[0]] + backlog[1..];
  }

  lemma FifoOutcome(accepted: seq<nat>, outcomes: seq<Outcome>, hand: Hand, backlog: seq<nat>, o: Outcome)
    requires Fifo(accepted, outcomes, hand, backlog) && InHand(hand) == [o.job]
    ensures Fifo(accepted, outcomes + [o], Idle, backlog)
  {
    JobsAppend(outcomes, o);
  }

  lemma FifoHand(accepted: seq<nat>, outcomes: seq<Outcome>, hand: Hand, hand': Hand, backlog: seq<nat>)
    requires Fifo(accepted, outcomes, hand, backlog) && InHand(hand') == InHand(hand)
    ensures Fifo(accepted, outcomes, hand', backlog)
  {
  }

  lemma FifoKept(s: State, a: Action)
    requires Fifo(s.accepted, s.outcomes, s.hand, s.backlog) && Enabled(s, a)
    ensures var t := Apply(s, a); Fifo(t.accepted, t.outcomes, t.hand, t.backlog)
  {
    hide Fifo, Move, Give, AllExited;
    match a
    case Accept(job) => FifoAccept(s.accepted, s.outcomes, s.hand, s.backlog, job);
    case Take => FifoTake(s.accepted, s.outcomes, s.backlog);
    case HandOver => FifoOutcome(s.accepted, s.outcomes, s.hand, s.backlog, Handed(s.hand.job, s.hand.join));
    case Report => FifoOutcome(s.accepted, s.outcomes, s.hand, s.backlog, Reported(s.hand.job));
    case _ => FifoHand(s.accepted, s.outcomes, s.hand, Apply(s, a).hand, s.backlog);
  }

  lemma LoggedHandOver(joins: seq<Join>, outcomes: seq<Outcome>, j: nat, job: nat)
    requires Logged(joins, outcomes) && j < |joins|
    ensures Logged(Give(joins, j, job), outcomes + [Handed(job, j)])
  {
    forall k: nat
      ensures HandedTo(outcomes + [Handed(job, j)], k) == HandedTo(outcomes, k) + if k == j then [job] else []
    {
      HandedToAppend(outcomes, Handed(job, j), k);
    }
    hide HandedTo;
  }

  lemma LoggedReport(joins: seq<Join>, outcomes: seq<Outcome>, job: nat)
    requires Logged(joins, outcomes)
    ensures Logged(joins, outcomes + [Reported(job)])
  {
    forall k: nat
      ensures HandedTo(outcomes + [Reported(job)], k) == HandedTo(outcomes, k)
    {
      HandedToAppend(outcomes, Reported(job), k);
    }
  }

  lemma LoggedMove(joins: seq<Join>, outcomes: seq<Outcome>, j: nat, phase: Phase)
    requires Logged(joins, outcomes) && j < |joins| && !phase.Running?
    ensures Logged(Move(joins, j, phase), outcomes)
  {
  }

  lemma LoggedJoin(joins: seq<Join>, outcomes: seq<Outcome>, worker: nat)
    requires Logged(joins, outcomes)
    ensures Logged(joins + [Join(worker, Top, false, [])], outcomes)
  {
  }

  lemma LoggedCancel(joins: seq<Join>, outcomes: seq<Outcome>, j: nat)
    requires Logged(joins, outcomes) && j < |joins|
    ensures Logged(joins[j := joins[j].(cancelled := true)], outcomes)
  {
  }

  lemma LoggedKept(s: State, a: Action)
    requires Logged(s.joins, s.outcomes) && Enabled(s, a)
    ensures Logged(Apply(s, a).joins, Apply(s, a).outcomes)
  {
    hide Logged;
    match a
    case HandOver => LoggedHandOver(s.joins, s.outcomes, s.hand.join, s.hand.job);
    case Report => LoggedReport(s.joins, s.outcomes, s.hand.job);
    case JoinWorker(worker) => LoggedJoin(s.joins, s.outcomes, worker);
    case Post(j) => LoggedMove(s.joins, s.outcomes, j, Posted);
    case Park(j) => LoggedMove(s.joins, s.outcomes, j, Parked);
    case EndJob(j) => LoggedMove(s.joins, s.outcomes, j, Top);
    case Exit(j) => LoggedMove(s.joins, s.outcomes, j, Exited);
    case CancelJoin(j) => LoggedCancel(s.joins, s.outcomes, j);
    case _ =>
  }

  // ---------- Claims ----------

  /** The claims of a join that are in the channel or in the dispatcher's hand. */
  function Outstanding(claims: seq<nat>, hand: Hand, j: nat): nat {
    multiset(claims)[j] + if (hand.Pulled? || hand.Sending?) && hand.join == j then 1 else 0
  }

  predicate Advertising(phase: Phase) {
    phase == Posted || phase == Parked
  }

  /**
    A live run loop has its one claim outstanding exactly while it advertises, unless the
    dispatcher threw the claim away; an exited one leaves at most one stale claim behind.
   */
  ghost predicate Claimed(joins: seq<Join>, claims: seq<nat>, hand: Hand, discarded: set<nat>) {
    && (forall j: nat :: |joins| <= j ==> Outstanding(claims, hand, j) == 0 && j !in discarded)
    && (forall j: nat :: j < |joins| ==> ClaimsOf(joins[j].phase, Outstanding(claims, hand, j), j in discarded))
  }

  ghost predicate ClaimsOf(phase: Phase, outstanding: nat, discarded: bool) {
    if phase == Exited then outstanding <= 1 && (discarded ==> outstanding == 0)
    else if Advertising(phase) then outstanding == (if discarded then 0 else 1)
    else outstanding == 0 && !discarded
  }

  lemma ClaimedPull(joins: seq<Join>, claims: seq<nat>, job: nat, discarded: set<nat>)
    requires Claimed(joins, claims, Holding(job), discarded) && claims != []
    ensures Claimed(joins, claims[1..], Pulled(job, claims[0]), discarded)
  {
    assert claims == [claims[0]] + claims[1..];
    forall j: nat
      ensures Outstanding(claims[1..], Pulled(job, claims[0]), j) == Outstanding(claims, Holding(job), j)
    {
    }
  }

  lemma ClaimedPost(joins: seq<Join>, claims: seq<nat>, hand: Hand, discarded: set<nat>, j: nat)
    requires Claimed(joins, claims, hand, discarded) && InPhase(joins, j, Top)
    ensures Claimed(Move(joins, j, Posted), claims + [j], hand, discarded)
  {
    forall k: nat
      ensures Outstanding(claims + [j], hand, k) == Outstanding(claims, hand, k) + if k == j then 1 else 0
    {
    }
  }

  /** The pulled claim leaves the hand: its join has none left. */
  lemma ClaimedRelease(joins: seq<Join>, claims: seq<nat>, hand: Hand, hand': Hand, discarded: set<nat>)
    requires Claimed(joins, claims, hand, discarded)
    requires (hand.Pulled? || hand.Sending?) && !hand'.Pulled? && !hand'.Sending?
    ensures hand.join < |joins|
    ensures Claimed(joins, claims, hand', discarded + {hand.join})
    ensures joins[hand.join].phase == Parked ==>
      forall job :: Claimed(Give(joins, hand.join, job), claims, hand', discarded)
  {
    assert Outstanding(claims, hand, hand.join) >= 1;
    forall j: nat
      ensures Outstanding(claims, hand', j) == Outstanding(claims, hand, j) - if j == hand.join then 1 else 0
    {
    }
  }

  lemma ClaimedMove(joins: seq<Join>, claims: seq<nat>, hand: Hand, discarded: set<nat>, j: nat, phase: Phase)
    requires Claimed(joins, claims, hand, discarded) && j < |joins|
    requires phase == Exited || Advertising(phase) == Advertising(joins[j].phase)
    requires joins[j].phase != Exited
    ensures Claimed(Move(joins, j, phase), claims, hand, discarded)
  {
    hide Outstanding;
  }

  lemma ClaimedCancel(joins: seq<Join>, claims: seq<nat>, hand: Hand, discarded: set<nat>, j: nat)
    requires Claimed(joins, claims, hand, discarded) && j < |joins|
    ensures Claimed(joins[j := joins[j].(cancelled := true)], claims, hand, discarded)
  {
    hide Outstanding;
  }

  lemma ClaimedJoin(joins: seq<Join>, claims: seq<nat>, hand: Hand, discarded: set<nat>, worker: nat)
    requires Claimed(joins, claims, hand, discarded)
    ensures Claimed(joins + [Join(worker, Top, false, [])], claims, hand, discarded)
  {
    hide Outstanding;
  }

  lemma ClaimedHand(joins: seq<Join>, claims: seq<nat>, hand: Hand, hand': Hand, discarded: set<nat>)
    requires Claimed(joins, claims, hand, discarded)
    requires forall j: nat :: Outstanding(claims, hand', j) == Outstanding(claims, hand, j)
    ensures Claimed(joins, claims, hand', discarded)
  {
    hide Outstanding;
  }

  lemma ClaimedKept(s: State, a: Action)
    requires Claimed(s.joins, s.claims, s.hand, s.discarded) && Enabled(s, a)
    ensures var t := Apply(s, a); Claimed(t.joins, t.claims, t.hand, t.discarded)
  {
    hide Claimed;
    match a
    case Pull => ClaimedPull(s.joins, s.claims, s.hand.job, s.discarded);
    case Post(j) => ClaimedPost(s.joins, s.claims, s.hand, s.discarded, j);
    case NotAlive => ClaimedRelease(s.joins, s.claims, s.hand, Holding(s.hand.job), s.discarded);
    case SendTimeout => ClaimedRelease(s.joins, s.claims, s.hand, Holding(s.hand.job), s.discarded);
    case HandOver => ClaimedRelease(s.joins, s.claims, s.hand, Idle, s.discarded);
    case Alive => ClaimedHand(s.joins, s.claims, s.hand, Sending(s.hand.job, s.hand.join), s.discarded);
    case Take => ClaimedHand(s.joins, s.claims, s.hand, Holding(s.backlog[0]), s.discarded);
    case Return => ClaimedHand(s.joins, s.claims, s.hand, Returned, s.discarded);
    case Report => ClaimedHand(s.joins, s.claims, s.hand, Idle, s.discarded);
    case JoinWorker(worker) => ClaimedJoin(s.joins, s.claims, s.hand, s.discarded, worker);
    case Park(j) => ClaimedMove(s.joins, s.claims, s.hand, s.discarded, j, Parked);
    case EndJob(j) => ClaimedMove(s.joins, s.claims, s.hand, s.discarded, j, Top);
    case Exit(j) => ClaimedMove(s.joins, s.claims, s.hand, s.discarded, j, Exited);
    case CancelJoin(j) => ClaimedCancel(s.joins, s.claims, s.hand, s.discarded, j);
    case _ =>
  }

  // ---------- Sizes, joins and shutdown ----------

  predicate Quiet(phase: Phase, phase': Phase) {
    && (phase == Exited ==> phase' == Exited)
    && (Advertising(phase) ==> Advertising(phase') || phase' == Exited)
  }

  /** What a step may do to one run loop: only being handed a job changes what it got. */
  predicate Fits(join: Join, join': Join, given: bool) {
    && join'.worker == join.worker
    && (join.phase == Exited ==> join'.phase == Exited)
    && (!given ==> join'.got == join.got && Quiet(join.phase, join'.phase))
  }

  lemma MoveFits(joins: seq<Join>, k: nat, phase: Phase, j: nat, given: bool)
    requires k < |joins| && j < |joins| && Quiet(joins[k].phase, phase)
    ensures |Move(joins, k, phase)| == |joins| && Fits(joins[j], Move(joins, k, phase)[j], given)
  {
  }

  lemma GiveFits(joins: seq<Join>, k: nat, job: nat, j: nat)
    requires k < |joins| && j < |joins| && joins[k].phase != Exited
    ensures |Give(joins, k, job)| == |joins| && Fits(joins[j], Give(joins, k, job)[j], k == j)
  {
  }

  lemma CancelFits(joins: seq<Join>, k: nat, j: nat, given: bool)
    requires k < |joins| && j < |joins|
    ensures Fits(joins[j], joins[k := joins[k].(cancelled := true)][j], given)
  {
  }

  lemma SameFits(join: Join, given: bool)
    ensures Fits(join, join, given)
  {
  }

  lemma JoinAt(s: State, a: Action, j: nat)
    requires Enabled(s, a) && j < |s.joins|
    ensures |Apply(s, a).joins| == |s.joins| + (if a.JoinWorker? then 1 else 0)
    ensures Fits(s.joins[j], Apply(s, a).joins[j], a.HandOver? && s.hand.join == j)
  {
    SameFits(s.joins[j], a.HandOver? && s.hand.join == j);
    hide Fits, Move, Give, AllExited;
    match a
    case HandOver => GiveFits(s.joins, s.hand.join, s.hand.job, j);
    case Post(k) => MoveFits(s.joins, k, Posted, j, false);
    case Park(k) => MoveFits(s.joins, k, Parked, j, false);
    case EndJob(k) => MoveFits(s.joins, k, Top, j, false);
    case Exit(k) => MoveFits(s.joins, k, Exited, j, false);
    case CancelJoin(k) => CancelFits(s.joins, k, j, false);
    case _ =>
  }

  /** At most one run loop per worker is live. */
  ghost predicate OneLive(joins: seq<Join>) {
    forall j, k :: 0 <= j < k < |joins| && joins[j].worker == joins[k].worker ==> joins[j].phase == Exited
  }

  ghost predicate Sized(s: State) {
    && |s.backlog| <= s.room && |s.claims| <= s.size && |s.subscribers| <= s.size
    && OneLive(s.joins)
  }

  lemma OneLiveKept(s: State, a: Action)
    requires OneLive(s.joins) && Enabled(s, a)
    ensures OneLive(Apply(s, a).joins)
  {
    var t := Apply(s, a);
    forall j, k | 0 <= j < k < |t.joins| && t.joins[j].worker == t.joins[k].worker
      ensures t.joins[j].phase == Exited
    {
      JoinAt(s, a, j);
      if k < |s.joins| {
        JoinAt(s, a, k);
      }
    }
  }

  lemma SizedKept(s: State, a: Action)
    requires Sized(s) && Enabled(s, a)
    ensures Sized(Apply(s, a))
  {
    OneLiveKept(s, a);
    hide OneLive;
  }

  /** If the dispatcher returned on a live context, everything accepted before shutdown was taken. */
  ghost predicate Drained(s: State) {
    && (s.shutdown ==> s.reject && s.before <= |s.accepted|)
    && (s.returnedLive ==> s.hand == Returned && s.shutdown && s.before <= |s.outcomes|)
    && (s.hand == Returned && !s.ctxDone ==> s.returnedLive)
  }

  lemma DrainedKept(s: State, a: Action)
    requires Drained(s) && Fifo(s.accepted, s.outcomes, s.hand, s.backlog) && Enabled(s, a)
    ensures Drained(Apply(s, a))
  {
    hide Move, Give, AllExited;
  }

  // ---------- The invariant of every run ----------

  ghost predicate Inv(s: State) {
    && Fifo(s.accepted, s.outcomes, s.hand, s.backlog)
    && Logged(s.joins, s.outcomes)
    && Claimed(s.joins, s.claims, s.hand, s.discarded)
    && Sized(s)
    && Drained(s)
  }

  lemma InvKept(s: State, a: Action)
    requires Inv(s) && Enabled(s, a)
    ensures Inv(Apply(s, a))
  {
    hide Fifo, Logged, Claimed, Sized, Drained, Enabled, Apply;
    FifoKept(s, a);
    LoggedKept(s, a);
    ClaimedKept(s, a);
    SizedKept(s, a);
    DrainedKept(s, a);
  }

  lemma {:induction false} InvAfter(s: State, run: seq<Action>)
    requires Inv(s) && CanRun(s, run)
    ensures Inv(After(s, run))
    decreases |run|
  {
    hide Inv, Enabled, Apply;
    if run != [] {
      InvKept(s, run[0]);
      InvAfter(Apply(s, run[0]), run[1..]);
    }
  }

  ghost predicate Reachable(s: State) {
    exists size, room, run :: CanRun(Init(size, room), run) && s == After(Init(size, room), run)
  }

  lemma InvInit(size: nat, room: nat)
    ensures Inv(Init(size, room))
  {
  }

  lemma ReachableInv(s: State)
    requires Reachable(s)
    ensures Inv(s)
  {
    hide Inv, Init, CanRun, After;
    var size, room, run :| CanRun(Init(size, room), run) && s == After(Init(size, room), run);
    InvInit(size, room);
    InvAfter(Init(size, room), run);
  }

  // ---------- What holds in every reachable state ----------

  predicate Distinct(jobs: seq<nat>) {
    forall i, k :: 0 <= i < k < |jobs| ==> jobs[i] != jobs[k]
  }

  /** Each accepted job is in exactly one place: handed to one join, reported, in hand, or in the backlog. */
  lemma ExactlyOnePlace(s: State)
    requires Reachable(s)
    ensures s.accepted == Jobs(s.outcomes) + InHand(s.hand) + s.backlog
    ensures Distinct(s.accepted) ==>
      && Distinct(Jobs(s.outcomes))
      && (forall job :: job in Jobs(s.outcomes) ==> job !in InHand(s.hand) && job !in s.backlog)
      && (forall job :: job in InHand(s.hand) ==> job !in s.backlog)
  {
    ReachableInv(s);
    if Distinct(s.accepted) {
      var done, held := Jobs(s.outcomes), InHand(s.hand);
      assert forall i :: 0 <= i < |done| ==> s.accepted[i] == done[i];
      assert forall i :: 0 <= i < |held| ==> s.accepted[|done| + i] == held[i];
      assert forall i :: 0 <= i < |s.backlog| ==> s.accepted[|done| + |held| + i] == s.backlog[i];
    }
  }

  lemma {:induction false} HandedToHas(outcomes: seq<Outcome>, j: nat, job: nat)
    ensures job in HandedTo(outcomes, j) <==> Handed(job, j) in outcomes
  {
    if outcomes != [] {
      var n := |outcomes| - 1;
      assert outcomes == outcomes[..n] + [outcomes[n]];
      HandedToHas(outcomes[..n], j, job);
    }
  }

  lemma HandedOnce(outcomes: seq<Outcome>, j: nat, job: nat)
    requires Distinct(Jobs(outcomes)) && Handed(job, j) in outcomes
    ensures job in Jobs(outcomes)
    ensures forall o :: o in outcomes && o.job == job ==> o == Handed(job, j)
  {
    var i :| 0 <= i < |outcomes| && outcomes[i] == Handed(job, j);
    assert Jobs(outcomes)[i] == job;
    forall o | o in outcomes && o.job == job
      ensures o == Handed(job, j)
    {
      var n :| 0 <= n < |outcomes| && outcomes[n] == o;
      assert Jobs(outcomes)[n] == job;
    }
  }

  /** What a run loop received is exactly what it was handed, in order, and no job reaches two of them. */
  lemma NoJobReceivedTwice(s: State, j: nat, k: nat, job: nat)
    requires Reachable(s) && Distinct(s.accepted)
    requires j < |s.joins| && k < |s.joins| && job in s.joins[j].got && job in s.joins[k].got
    ensures j == k && job in s.accepted && Reported(job) !in s.outcomes
    ensures Distinct(s.joins[j].got)
  {
    ReachableInv(s);
    ExactlyOnePlace(s);
    hide Reachable, Claimed, Sized, Drained, Jobs, HandedTo, Distinct;
    HandedToHas(s.outcomes, j, job);
    HandedToHas(s.outcomes, k, job);
    HandedOnce(s.outcomes, j, job);
    HandedToDistinct(s.outcomes, j);
  }

  lemma {:induction false} HandedToDistinct(outcomes: seq<Outcome>, j: nat)
    requires Distinct(Jobs(outcomes))
    ensures Distinct(HandedTo(outcomes, j))
  {
    if outcomes != [] {
      var n := |outcomes| - 1;
      var init := outcomes[..n];
      assert forall i :: 0 <= i < n ==> Jobs(init)[i] == Jobs(outcomes)[i];
      forall job | job in HandedTo(init, j)
        ensures job != outcomes[n].job
      {
        HandedToHas(init, j, job);
        var i :| 0 <= i < |init| && init[i] == Handed(job, j);
        assert Jobs(outcomes)[i] == job && Jobs(outcomes)[n] == outcomes[n].job;
      }
      HandedToDistinct(init, j);
      var h := HandedTo(init, j);
      assert forall i :: 0 <= i < |h| ==> h[i] in h;
    }
  }

  /**
    A live run loop has at most one claim outstanding, and only while it advertises; it has none
    while advertising exactly when the dispatcher threw its claim away.
   */
  lemma OneClaimWhileAdvertising(s: State, j: nat)
    requires Reachable(s) && j < |s.joins| && s.joins[j].phase != Exited
    ensures Outstanding(s.claims, s.hand, j) <= 1
    ensures Outstanding(s.claims, s.hand, j) == 1 ==> Advertising(s.joins[j].phase)
    ensures Advertising(s.joins[j].phase) ==> (Outstanding(s.claims, s.hand, j) == 0 <==> j in s.discarded)
    ensures forall k :: 0 <= k < |s.joins| && k != j && s.joins[k].worker == s.joins[j].worker ==>
      k < j && s.joins[k].phase == Exited
  {
    ReachableInv(s);
  }

  /**
    Graceful drain: if the pool context was live when the dispatcher returned, then from that
    moment on, whatever is cancelled or accepted later, every job accepted before shutdown was
    closed has been handed over or reported, in order.
   */
  lemma GracefulDrain(s: State)
    requires Reachable(s) && s.returnedLive
    ensures s.hand == Returned && s.shutdown && s.before <= |s.outcomes| && s.before <= |s.accepted|
    ensures s.accepted[..s.before] == Jobs(s.outcomes)[..s.before]
  {
    ReachableInv(s);
  }

  lemma ShutdownStep(s: State, a: Action)
    requires s.shutdown && Enabled(s, a)
    ensures Apply(s, a).shutdown && Apply(s, a).before == s.before && s.accepted <= Apply(s, a).accepted
  {
    hide Move, Give, AllExited;
  }

  lemma {:induction false} ShutdownStays(s: State, run: seq<Action>)
    requires s.shutdown && CanRun(s, run)
    ensures After(s, run).shutdown && After(s, run).before == s.before && s.accepted <= After(s, run).accepted
    decreases |run|
  {
    if run != [] {
      ShutdownStep(s, run[0]);
      hide Apply, Enabled;
      ShutdownStays(Apply(s, run[0]), run[1..]);
    }
  }

  /**
    Graceful drain over runs: when the dispatcher returns on a live context after shutdown was
    closed, the outcomes begin with all jobs accepted by the time of the close, in order.
   */
  lemma ShutdownDrains(s: State, run: seq<Action>)
    requires Reachable(s) && Enabled(s, CloseShutdown) && CanRun(Apply(s, CloseShutdown), run)
    ensures var t := After(Apply(s, CloseShutdown), run); t.returnedLive ==> s.accepted <= Jobs(t.outcomes)
  {
    ReachableInv(s);
    InvKept(s, CloseShutdown);
    var closed := Apply(s, CloseShutdown);
    assert closed.shutdown && closed.accepted == s.accepted && closed.before == |s.accepted|;
    hide Inv, Enabled, Apply, Reachable;
    InvAfter(closed, run);
    ShutdownStays(closed, run);
    if After(closed, run).returnedLive {
      DrainedPrefix(After(closed, run), s.accepted);
    }
  }

  lemma DrainedPrefix(t: State, accepted: seq<nat>)
    requires Inv(t) && t.returnedLive && t.before == |accepted| && accepted <= t.accepted
    ensures accepted <= Jobs(t.outcomes)
  {
    hide Logged, Claimed, Sized;
  }

  /** As long as the context is live, a dispatcher that has returned did so on a live context. */
  lemma ReturnedLive(s: State)
    requires Reachable(s) && s.hand == Returned && !s.ctxDone
    ensures s.returnedLive
  {
    ReachableInv(s);
  }

  // ---------- The discarded claim ----------

  /** A live worker whose claim is gone. */
  ghost predicate Starved(s: State, j: nat) {
    j < |s.joins| && Advertising(s.joins[j].phase) && Outstanding(s.claims, s.hand, j) == 0
  }

  predicate GivesUp(a: Action) {
    a == SendTimeout || a == NotAlive
  }

  lemma DiscardedByGivingUp(s: State, a: Action)
    requires Enabled(s, a) && GivesUp(a)
    ensures Apply(s, a).discarded == s.discarded + {s.hand.join}
  {
    hide Move, Give, AllExited, InPhase;
  }

  lemma DiscardedByNobodyElse(s: State, a: Action)
    requires Enabled(s, a) && !GivesUp(a)
    ensures Apply(s, a).discarded == s.discarded
  {
    hide Move, Give, AllExited, InPhase;
  }

  lemma HoldsClaim(s: State, a: Action)
    requires Enabled(s, a) && (a.HandOver? || GivesUp(a))
    ensures s.hand.Pulled? || s.hand.Sending?
  {
    hide AllExited, InPhase;
  }

  lemma DiscardedAfter(s: State, a: Action)
    requires Enabled(s, a)
    ensures a.HandOver? || GivesUp(a) ==> s.hand.Pulled? || s.hand.Sending?
    ensures Apply(s, a).discarded == if GivesUp(a) then s.discarded + {s.hand.join} else s.discarded
  {
    if a.HandOver? || GivesUp(a) {
      HoldsClaim(s, a);
    }
    if GivesUp(a) {
      DiscardedByGivingUp(s, a);
    } else {
      DiscardedByNobodyElse(s, a);
    }
    hide Apply, Enabled;
  }

  lemma GivesUpKeepsJoins(s: State, a: Action)
    requires Enabled(s, a) && GivesUp(a)
    ensures Apply(s, a).joins == s.joins
  {
  }

  /** A live run loop is starved exactly while its claim is discarded. */
  lemma StarvedDiscarded(s: State, j: nat)
    requires Claimed(s.joins, s.claims, s.hand, s.discarded) && j < |s.joins| && s.joins[j].phase != Exited
    ensures Starved(s, j) <==> j in s.discarded
    ensures (s.hand.Pulled? || s.hand.Sending?) && s.hand.join == j ==>
      Advertising(s.joins[j].phase) && j !in s.discarded
  {
  }

  lemma StarvedStep(s: State, a: Action, j: nat)
    requires Inv(s) && Starved(s, j) && Enabled(s, a)
    ensures var t := Apply(s, a);
      && j < |t.joins| && t.joins[j].got == s.joins[j].got
      && (Starved(t, j) || t.joins[j].phase == Exited)
  {
    InvKept(s, a);
    JoinAt(s, a, j);
    DiscardedAfter(s, a);
    hide Enabled, Apply, Fifo, Logged, Sized, Drained;
    var t := Apply(s, a);
    StarvedDiscarded(s, j);
    if t.joins[j].phase != Exited {
      StarvedDiscarded(t, j);
    }
  }

  /**
    A step starves a live run loop if and only if it is the dispatcher giving up on the claim it
    holds of that run loop, by a send that timed out or an ID no longer subscribed.
   */
  lemma StarvesExactly(s: State, a: Action, j: nat)
    requires Inv(s) && Enabled(s, a) && j < |s.joins| && s.joins[j].phase != Exited && !Starved(s, j)
    ensures Starved(Apply(s, a), j) <==> GivesUp(a) && s.hand.join == j
    ensures Starved(Apply(s, a), j) && s.joins[j].worker in s.subscribers ==> a == SendTimeout
  {
    InvKept(s, a);
    JoinAt(s, a, j);
    DiscardedAfter(s, a);
    StarvedDiscarded(s, j);
    if GivesUp(a) {
      GivesUpKeepsJoins(s, a);
    }
    hide Enabled, Apply, Fifo, Logged, Sized, Drained, Claimed;
    var t := Apply(s, a);
    if t.joins[j].phase != Exited {
      StarvedDiscarded(t, j);
    }
  }

  lemma ExitedStep(s: State, a: Action, j: nat)
    requires j < |s.joins| && s.joins[j].phase == Exited && Enabled(s, a)
    ensures var t := Apply(s, a); j < |t.joins| && t.joins[j].phase == Exited && t.joins[j].got == s.joins[j].got
  {
    JoinAt(s, a, j);
    hide Apply;
  }

  lemma {:induction false} ExitedStays(s: State, run: seq<Action>, j: nat)
    requires j < |s.joins| && s.joins[j].phase == Exited && CanRun(s, run)
    ensures var t := After(s, run);
      j < |t.joins| && t.joins[j].phase == Exited && t.joins[j].got == s.joins[j].got
    decreases |run|
  {
    if run != [] {
      ExitedStep(s, run[0], j);
      ExitedStays(Apply(s, run[0]), run[1..], j);
    }
  }

  /** Once its claim is gone a worker never receives another job: it waits until it is made to leave. */
  lemma {:induction false} StarvedForever(s: State, run: seq<Action>, j: nat)
    requires Inv(s) && Starved(s, j) && CanRun(s, run)
    ensures var t := After(s, run);
      j < |t.joins| && t.joins[j].got == s.joins[j].got && (Starved(t, j) || t.joins[j].phase == Exited)
    decreases |run|
  {
    if run != [] {
      var t := Apply(s, run[0]);
      StarvedStep(s, run[0], j);
      InvKept(s, run[0]);
      if Starved(t, j) {
        StarvedForever(t, run[1..], j);
      } else {
        ExitedStays(t, run[1..], j);
      }
    }
  }

  lemma {:induction false} RunAppend(s: State, run: seq<Action>, a: Action)
    requires CanRun(s, run) && Enabled(After(s, run), a)
    ensures CanRun(s, run + [a]) && After(s, run + [a]) == Apply(After(s, run), a)
    decreases |run|
  {
    if run == [] {
      assert run + [a] == [a] && [a][1..] == [];
    } else {
      assert (run + [a])[1..] == run[1..] + [a];
      RunAppend(Apply(s, run[0]), run[1..], a);
    }
  }

  lemma ReachableStep(s: State, a: Action)
    requires Reachable(s) && Enabled(s, a)
    ensures Reachable(Apply(s, a))
  {
    var size, room, run :| CanRun(Init(size, room), run) && s == After(Init(size, room), run);
    RunAppend(Init(size, room), run, a);
  }

  lemma JoinHappens() returns (s: State)
    ensures Reachable(s)
    ensures s == State(1, 1, multiset{}, [], Idle, [], {1}, [Join(1, Top, false, [])],
                       false, false, false, false, [], 0, [], {})
  {
    s := Init(1, 1);
    assert Reachable(s) by {
      assert CanRun(s, []) && s == After(s, []);
    }
    hide Reachable, CanRun, After;
    ReachableStep(s, JoinWorker(1));
    s := Apply(s, JoinWorker(1));
  }

  lemma PostHappens() returns (s: State)
    ensures Reachable(s)
    ensures s == State(1, 1, multiset{}, [], Idle, [0], {1}, [Join(1, Posted, false, [])],
                       false, false, false, false, [], 0, [], {})
  {
    s := JoinHappens();
    hide Reachable;
    ReachableStep(s, Post(0));
    s := Apply(s, Post(0));
  }

  lemma PullHappens() returns (s: State)
    ensures Reachable(s)
    ensures s == State(1, 1, multiset{}, [], Pulled(7, 0), [], {1}, [Join(1, Posted, false, [])],
                       false, false, false, false, [7], 0, [], {})
  {
    s := PostHappens();
    hide Reachable;
    ReachableStep(s, BeginSubmit(7));
    s := Apply(s, BeginSubmit(7));
    ReachableStep(s, Accept(7));
    s := Apply(s, Accept(7));
    ReachableStep(s, Take);
    s := Apply(s, Take);
    ReachableStep(s, Pull);
    s := Apply(s, Pull);
  }

  /**
    Starvation does occur: a worker whose started hook outlasts one send is left subscribed and
    parked with no claim anywhere, so the job in hand can only be reported.
   */
  lemma StarvationHappens() returns (s: State)
    ensures Reachable(s) && Starved(s, 0) && s.joins[0].phase == Parked && !s.joins[0].cancelled
    ensures s.subscribers == {1} && s.claims == [] && s.hand == Holding(7)
  {
    s := PullHappens();
    hide Reachable;
    ReachableStep(s, Alive);
    s := Apply(s, Alive);
    ReachableStep(s, SendTimeout);
    s := Apply(s, SendTimeout);
    ReachableStep(s, Park(0));
    s := Apply(s, Park(0));
  }

  // ---------- What a handover was preceded by ----------

  lemma {:induction false} RunSplit(s: State, run: seq<Action>, i: nat)
    requires CanRun(s, run) && i < |run|
    ensures CanRun(s, run[..i]) && Enabled(After(s, run[..i]), run[i])
    ensures CanRun(s, run[..i + 1]) && After(s, run[..i + 1]) == Apply(After(s, run[..i]), run[i])
    decreases |run|
  {
    hide Enabled, Apply;
    if i == 0 {
      assert run[..0] == [] && run[..1] == [run[0]] && [run[0]][1..] == [];
    } else {
      RunSplit(Apply(s, run[0]), run[1..], i - 1);
      assert run[..i][1..] == run[1..][..i - 1] && run[..i + 1][1..] == run[1..][..i];
    }
  }

  /** Only an alive check puts the dispatcher into a send, and nothing but its end takes it out. */
  lemma SendingStep(s: State, a: Action)
    requires Enabled(s, a) && Apply(s, a).hand.Sending?
    ensures a == Alive || (a != Pull && s.hand == Apply(s, a).hand)
    ensures a == Alive ==>
      && s.hand.Pulled? && s.hand.join == Apply(s, a).hand.join && s.hand.job == Apply(s, a).hand.job
      && s.hand.join < |s.joins| && s.joins[s.hand.join].worker in s.subscribers
  {
    hide Move, Give, AllExited;
  }

  /** Step k of the run checked the claim in hand: its worker was subscribed, and no claim was pulled since. */
  ghost predicate CheckedAt(size: nat, room: nat, run: seq<Action>, i: nat, k: nat, job: nat, join: nat)
    requires CanRun(Init(size, room), run) && i <= |run|
  {
    && k < i && run[k] == Alive && (forall m :: k < m < i ==> run[m] != Pull)
    && CanRun(Init(size, room), run[..k])
    && var q := After(Init(size, room), run[..k]);
       && q.hand == Pulled(job, join) && join < |q.joins| && q.joins[join].worker in q.subscribers
  }

  lemma CheckedNow(size: nat, room: nat, run: seq<Action>, i: nat)
    requires CanRun(Init(size, room), run) && 1 <= i <= |run| && run[i - 1] == Alive
    requires CanRun(Init(size, room), run[..i - 1]) && Enabled(After(Init(size, room), run[..i - 1]), Alive)
    ensures var hand := After(Init(size, room), run[..i - 1]).hand;
      hand.Pulled? && CheckedAt(size, room, run, i, i - 1, hand.job, hand.join)
  {
    hide CanRun, After;
  }

  lemma CheckedMore(size: nat, room: nat, run: seq<Action>, i: nat, k: nat, job: nat, join: nat)
    requires CanRun(Init(size, room), run) && 1 <= i <= |run| && run[i - 1] != Pull
    requires CheckedAt(size, room, run, i - 1, k, job, join)
    ensures CheckedAt(size, room, run, i, k, job, join)
  {
    hide CanRun, After;
  }

  lemma NothingYet(size: nat, room: nat, run: seq<Action>)
    ensures CanRun(Init(size, room), run[..0]) && After(Init(size, room), run[..0]) == Init(size, room)
  {
    assert run[..0] == [];
  }

  lemma {:induction false} SendingChecked(size: nat, room: nat, run: seq<Action>, i: nat) returns (k: nat)
    requires CanRun(Init(size, room), run) && i <= |run| && CanRun(Init(size, room), run[..i])
    requires After(Init(size, room), run[..i]).hand.Sending?
    ensures var hand := After(Init(size, room), run[..i]).hand; CheckedAt(size, room, run, i, k, hand.job, hand.join)
    decreases i
  {
    NothingYet(size, room, run);
    hide Enabled, Apply, CanRun, After, CheckedAt;
    if 0 < i {
      RunSplit(Init(size, room), run, i - 1);
      var s, hand := After(Init(size, room), run[..i - 1]), After(Init(size, room), run[..i]).hand;
      SendingStep(s, run[i - 1]);
      if run[i - 1] == Alive {
        k := i - 1;
        CheckedNow(size, room, run, i);
      } else {
        k := SendingChecked(size, room, run, i - 1);
        CheckedMore(size, room, run, i, k, hand.job, hand.join);
      }
    }
  }

  /**
    Over every run, a job is handed over only after an alive check of the very claim it is handed
    over by: the claim was in hand with the job, its worker was subscribed at that moment, and no
    claim was pulled in between.
   */
  lemma HandedOnlyIfSubscribed(size: nat, room: nat, run: seq<Action>, i: nat) returns (k: nat)
    requires CanRun(Init(size, room), run) && i < |run| && run[i] == HandOver
    ensures k < i && run[k] == Alive && forall m :: k < m < i ==> run[m] != Pull
    ensures CanRun(Init(size, room), run[..k]) && CanRun(Init(size, room), run[..i + 1])
    ensures var q, t := After(Init(size, room), run[..k]), After(Init(size, room), run[..i + 1]);
      && q.hand.Pulled? && q.hand.join < |q.joins| && q.joins[q.hand.join].worker in q.subscribers
      && t.outcomes != [] && t.outcomes[|t.outcomes| - 1] == Handed(q.hand.job, q.hand.join)
  {
    RunSplit(Init(size, room), run, i);
    k := SendingChecked(size, room, run, i);
    hide CanRun, After;
  }

  // ---------- Claims are pulled in the order they were posted ----------

  function Posts(run: seq<Action>): seq<nat> {
    if run == [] then [] else (if run[0].Post? then [run[0].join] else []) + Posts(run[1..])
  }

  function Pulls(run: seq<Action>): nat {
    if run == [] then 0 else (if run[0] == Pull then 1 else 0) + Pulls(run[1..])
  }

  lemma ClaimsStep(s: State, a: Action)
    requires Enabled(s, a)
    ensures a == Pull ==> s.claims != [] && Apply(s, a).claims == s.claims[1..] && Apply(s, a).hand.Pulled?
    ensures a == Pull ==> Apply(s, a).hand.join == s.claims[0]
    ensures a.Post? ==> Apply(s, a).claims == s.claims + [a.join]
    ensures a != Pull && !a.Post? ==> Apply(s, a).claims == s.claims
  {
    hide Move, Give, AllExited;
  }

  /** The channel's contents after some posts and pulls. */
  ghost predicate Queued(claims: seq<nat>, posts: seq<nat>, pulls: nat, claims': seq<nat>) {
    pulls <= |claims| + |posts| && claims' == (claims + posts)[pulls..]
  }

  lemma QueuedNothing(claims: seq<nat>)
    ensures Queued(claims, [], 0, claims)
  {
    assert claims + [] == claims;
  }

  lemma QueuedPull(claims: seq<nat>, posts: seq<nat>, pulls: nat, claims': seq<nat>)
    requires claims != [] && Queued(claims[1..], posts, pulls, claims')
    ensures Queued(claims, posts, pulls + 1, claims')
  {
    assert claims[1..] + posts == (claims + posts)[1..];
  }

  lemma QueuedPost(claims: seq<nat>, j: nat, posts: seq<nat>, pulls: nat, claims': seq<nat>)
    requires Queued(claims + [j], posts, pulls, claims')
    ensures Queued(claims, [j] + posts, pulls, claims')
  {
    assert (claims + [j]) + posts == claims + ([j] + posts);
  }

  lemma {:induction false} RunQueued(s: State, run: seq<Action>)
    requires CanRun(s, run)
    ensures Queued(s.claims, Posts(run), Pulls(run), After(s, run).claims)
    decreases |run|
  {
    hide Apply, Enabled, Queued;
    if run == [] {
      QueuedNothing(s.claims);
    } else {
      var t, rest := Apply(s, run[0]), run[1..];
      ClaimsStep(s, run[0]);
      RunQueued(t, rest);
      assert [] + Posts(rest) == Posts(rest);
      if run[0] == Pull {
        QueuedPull(s.claims, Posts(rest), Pulls(rest), After(t, rest).claims);
      } else if run[0].Post? {
        QueuedPost(s.claims, run[0].join, Posts(rest), Pulls(rest), After(t, rest).claims);
      }
    }
  }

  /** The claims channel is first in, first out over every run. */
  lemma ClaimsInOrder(s: State, run: seq<Action>)
    requires CanRun(s, run)
    ensures Pulls(run) <= |s.claims + Posts(run)|
    ensures After(s, run).claims == (s.claims + Posts(run))[Pulls(run)..]
  {
    RunQueued(s, run);
    var claims, posts, pulls, claims' := s.claims, Posts(run), Pulls(run), After(s, run).claims;
    assert Queued(claims, posts, pulls, claims');
    assert |claims + posts| == |claims| + |posts|;
  }

  // ---------- What ends submissions and run loops ----------

  lemma RejectStep(s: State, a: Action)
    requires s.reject && Enabled(s, a)
    ensures var t := Apply(s, a);
      && t.reject && s.accepted <= t.accepted
      && multiset(t.accepted) + t.waiting <= multiset(s.accepted) + s.waiting
  {
    hide Move, Give, AllExited;
    if a.Accept? {
      assert s.waiting == s.waiting - multiset{a.job} + multiset{a.job};
    }
  }

  /** Once the pool rejects, only the submissions already past that check can still be accepted. */
  lemma {:induction false} RejectStops(s: State, run: seq<Action>)
    requires s.reject && CanRun(s, run)
    ensures var t := After(s, run);
      && t.reject && s.accepted <= t.accepted
      && multiset(t.accepted) + t.waiting <= multiset(s.accepted) + s.waiting
    decreases |run|
  {
    if run != [] {
      RejectStep(s, run[0]);
      hide Apply, Enabled;
      RejectStops(Apply(s, run[0]), run[1..]);
    }
  }

  /** A run loop has exited only because its context was done, by its own leave or with the pool. */
  ghost predicate ExitsAsked(s: State) {
    forall j :: 0 <= j < |s.joins| && s.joins[j].phase == Exited ==> s.joins[j].cancelled || s.ctxDone
  }

  lemma ExitsAskedKept(s: State, a: Action)
    requires ExitsAsked(s) && Enabled(s, a)
    ensures ExitsAsked(Apply(s, a))
  {
    hide AllExited;
  }

  lemma {:induction false} ExitsAskedAfter(s: State, run: seq<Action>)
    requires ExitsAsked(s) && CanRun(s, run)
    ensures ExitsAsked(After(s, run))
    decreases |run|
  {
    if run != [] {
      ExitsAskedKept(s, run[0]);
      hide Apply, Enabled, ExitsAsked;
      ExitsAskedAfter(Apply(s, run[0]), run[1..]);
    }
  }

  /** In every reachable state, a worker that was not made to leave and whose pool is live is still in its run loop. */
  lemma StaysUntilAsked(s: State, j: nat)
    requires Reachable(s) && j < |s.joins| && !s.joins[j].cancelled && !s.ctxDone
    ensures s.joins[j].phase != Exited
  {
    var size, room, run :| CanRun(Init(size, room), run) && s == After(Init(size, room), run);
    ExitsAskedAfter(Init(size, room), run);
  }

  lemma SubscribersStep(s: State, a: Action)
    requires Enabled(s, a)
    ensures a.JoinWorker? ==>
      Apply(s, a).subscribers == s.subscribers + {a.worker} && Apply(s, a).joins[|s.joins|].worker == a.worker
    ensures a.Unsubscribe? ==>
      a.join < |s.joins| && Apply(s, a).subscribers == s.subscribers - {s.joins[a.join].worker}
    ensures !a.JoinWorker? && !a.Unsubscribe? ==> Apply(s, a).subscribers == s.subscribers
    ensures s.ctxDone ==> Apply(s, a).ctxDone && !a.JoinWorker?
    ensures |Apply(s, a).joins| == |s.joins| + (if a.JoinWorker? then 1 else 0)
  {
    hide AllExited;
  }

  /** Once the pool context is done, nobody joins any more. */
  lemma {:induction false} DoneStopsJoins(s: State, run: seq<Action>)
    requires s.ctxDone && CanRun(s, run)
    ensures |After(s, run).joins| == |s.joins| && After(s, run).subscribers <= s.subscribers
    decreases |run|
  {
    if run != [] {
      SubscribersStep(s, run[0]);
      hide Apply, Enabled;
      DoneStopsJoins(Apply(s, run[0]), run[1..]);
    }
  }

  lemma WorkerKept(s: State, a: Action, j: nat)
    requires Enabled(s, a) && j < |s.joins|
    ensures j < |Apply(s, a).joins| && Apply(s, a).joins[j].worker == s.joins[j].worker
  {
    JoinAt(s, a, j);
    hide Apply;
  }

  /** A worker that is not subscribed after a step was not before it, or was unsubscribed by it. */
  lemma UnsubscribedStep(s: State, a: Action, j: nat)
    requires Enabled(s, a) && j < |Apply(s, a).joins|
    requires Apply(s, a).joins[j].worker !in Apply(s, a).subscribers
    ensures j < |s.joins| && Apply(s, a).joins[j].worker == s.joins[j].worker
    ensures s.joins[j].worker in s.subscribers ==>
      a.Unsubscribe? && a.join < |s.joins| && s.joins[a.join].worker == s.joins[j].worker
  {
    SubscribersStep(s, a);
    if j < |s.joins| {
      WorkerKept(s, a, j);
    }
    hide Apply, Enabled;
  }

  /** A worker that joined and is not subscribed was unsubscribed at some step. */
  lemma {:induction false} UnsubscribedAt(size: nat, room: nat, run: seq<Action>, i: nat, j: nat) returns (k: nat)
    requires CanRun(Init(size, room), run) && i <= |run| && CanRun(Init(size, room), run[..i])
    requires var t := After(Init(size, room), run[..i]);
      j < |t.joins| && t.joins[j].worker !in t.subscribers
    ensures k < i && run[k].Unsubscribe?
    ensures var t := After(Init(size, room), run[..i]);
      run[k].join < |t.joins| && t.joins[run[k].join].worker == t.joins[j].worker
    decreases i
  {
    NothingYet(size, room, run);
    hide Enabled, Apply, CanRun, After;
    if 0 < i {
      RunSplit(Init(size, room), run, i - 1);
      var s, a := After(Init(size, room), run[..i - 1]), run[i - 1];
      UnsubscribedStep(s, a, j);
      if s.joins[j].worker in s.subscribers {
        k := i - 1;
      } else {
        k := UnsubscribedAt(size, room, run, i - 1, j);
      }
      WorkerKept(s, a, run[k].join);
    }
  }

  /** Over every run, a run loop is told to stop only after its worker was unsubscribed. */
  lemma StoppedAfterUnsubscribed(size: nat, room: nat, run: seq<Action>, i: nat, j: nat) returns (k: nat)
    requires CanRun(Init(size, room), run) && i < |run| && run[i] == CancelJoin(j)
    ensures k < i && run[k].Unsubscribe? && CanRun(Init(size, room), run[..i])
    ensures var t := After(Init(size, room), run[..i]);
      && j < |t.joins| && run[k].join < |t.joins| && t.joins[run[k].join].worker == t.joins[j].worker
      && t.joins[j].worker !in t.subscribers
  {
    RunSplit(Init(size, room), run, i);
    k := UnsubscribedAt(size, room, run, i, j);
  }
}
