/**
 `block_on_with` and its waker (src/reactor/local.rs) around `poll_once` (src/reactor/driver.rs):
 one thread polls a future and waits in the kernel itself. A wake from that thread while it is
 inside `poll_once` skips the syscall; timers fire inside `poll_once` before the wait, so the wait
 must not block after one fired. The poller's wake is sticky.
 */
module LocalBlockOn {
  import opened Behaviours

  /** Another thread inside `wake_by_ref`: past its store, or past its check and about to wake the poller. */
  datatype Foreign = Stored | Waking

  /** The driving thread. `Waiting(false)` is a wait with a zero timeout. */
  datatype Pc =
    | Top
    | PollingFuture
    | Unclaimed
    | Servicing(woke: bool)
    | Waiting(blocks: bool)
    | Dispatching
    | Failed
    | LastChance
    | Finished

  /** `key` is the driving thread's nonzero id; `waiting` holds it while the thread is inside `poll_once`. */
  datatype State = State(key: nat, ready: bool, waiting: nat, sticky: bool, foreign: map<nat, Foreign>, pc: Pc)

  datatype Label =
    | Swap
    | OwnWake
    | FutureReady
    | FuturePending
    | Claim
    | FireTimer(mine: bool)
    | Serviced
    | Return(consumes: bool, ok: bool)
    | DispatchWake
    | Unclaim
    | ForeignStore(thread: nat)
    | ForeignCheck(thread: nat)
    | ForeignWake(thread: nat)

  ghost predicate Enabled(s: State, l: Label) {
    match l
    case Swap => s.pc == Top
    case OwnWake => s.pc == PollingFuture || s.pc == LastChance
    case FutureReady => s.pc == PollingFuture || s.pc == LastChance
    case FuturePending => s.pc == PollingFuture || s.pc == LastChance
    case Claim => s.pc == Unclaimed
    case FireTimer(_) => s.pc.Servicing?
    case Serviced => s.pc.Servicing?
    case Return(_, _) => s.pc.Waiting?
    case DispatchWake => s.pc == Dispatching
    case Unclaim => s.pc == Dispatching || s.pc == Failed
    case ForeignStore(thread) => thread != s.key && thread != 0 && thread !in s.foreign
    case ForeignCheck(thread) => thread in s.foreign && s.foreign[thread] == Stored
    case ForeignWake(thread) => thread in s.foreign && s.foreign[thread] == Waking
  }

  /** `LocalWaker::wake_by_ref` called on the driving thread itself. */
  function WakeByRef(s: State): State {
    s.(ready := true, sticky := s.sticky || s.waiting != s.key)
  }

  /** The check of `wake_by_ref` on another thread: only the thread inside the wait may skip the syscall. */
  function Check(s: State, thread: nat): State {
    s.(foreign := if s.waiting == thread then s.foreign - {thread} else s.foreign[thread := Waking])
  }

  function Do(s: State, l: Label): State
    requires Enabled(s, l)
  {
    match l
    case Swap => s.(ready := false, pc := if s.ready then PollingFuture else Unclaimed)
    case OwnWake => WakeByRef(s)
    case FutureReady => s.(pc := Finished)
    case FuturePending => s.(pc := if s.pc == LastChance then Top else Unclaimed)
    case Claim => s.(waiting := s.key, pc := Servicing(false))
    case FireTimer(mine) => (if mine then WakeByRef(s) else s).(pc := Servicing(true))
    case Serviced => s.(pc := Waiting(!s.pc.woke))
    case Return(consumes, ok) => s.(sticky := s.sticky && !consumes, pc := if ok then Dispatching else Failed)
    case DispatchWake => WakeByRef(s)
    case Unclaim => s.(waiting := 0, pc := if s.pc == Failed then LastChance else Top)
    case ForeignStore(thread) => s.(ready := true, foreign := s.foreign[thread := Stored])
    case ForeignCheck(thread) => Check(s, thread)
    case ForeignWake(thread) => s.(sticky := true, foreign := s.foreign - {thread})
  }

  ghost predicate Init(s: State) {
    s.key != 0 && s == State(s.key, true, 0, false, map[], Top)
  }

  ghost predicate Next(s: State, t: State) {
    exists l :: Enabled(s, l) && t == Do(s, l)
  }

  /** Something will end the wait: a pending poller wake, or another thread on its way to issue one. */
  ghost predicate WakeComing(s: State) {
    s.sticky || exists thread :: thread in s.foreign
  }

  /** The thread is between the last look at `ready` and the end of a wait that may block. */
  predicate MayBlock(pc: Pc) {
    pc == PollingFuture || pc == Unclaimed || pc == Servicing(false) || pc == Waiting(true)
  }

  ghost predicate Inv(s: State) {
    && s.key != 0
    && (s.waiting == 0 || s.waiting == s.key)
    && (s.waiting == s.key <==> s.pc.Servicing? || s.pc.Waiting? || s.pc == Dispatching || s.pc == Failed)
    && (forall thread :: thread in s.foreign ==> thread != s.key && thread != 0)
    && (MayBlock(s.pc) && s.ready ==> WakeComing(s))
  }

  lemma StepKeeps(s: State, l: Label)
    requires Inv(s) && Enabled(s, l)
    ensures Inv(Do(s, l))
  {
    var t := Do(s, l);
    match l
    case ForeignStore(thread) => assert thread in t.foreign;
    case ForeignCheck(thread) => assert thread in t.foreign;
    case ForeignWake(_) =>
    case _ => assert t.foreign == s.foreign;
  }

  lemma InvAt(run: seq<State>, i: nat)
    requires IsRun(Init, Next, run) && i < |run|
    ensures Inv(run[i])
  {
    forall s, t | Inv(s) && Next(s, t) ensures Inv(t) {
      var l :| Enabled(s, l) && t == Do(s, l);
      StepKeeps(s, l);
    }
    Invariance(Init, Next, Inv, run);
  }

  /** A wait that may block while the future is ready is about to be ended by a poller wake. */
  lemma NeverBlocksOnReadyWork(run: seq<State>, i: nat)
    requires IsRun(Init, Next, run) && i < |run| && run[i].pc == Waiting(true) && run[i].ready
    ensures run[i].sticky || exists thread :: thread in run[i].foreign
  {
    InvAt(run, i);
  }

  /** No other thread ever takes itself for the one inside the wait, so none of its wakes is suppressed. */
  lemma ForeignWakesReachThePoller(run: seq<State>, i: nat, thread: nat)
    requires IsRun(Init, Next, run) && i < |run| && Enabled(run[i], ForeignCheck(thread))
    ensures Enabled(Do(run[i], ForeignCheck(thread)), ForeignWake(thread))
  {
    InvAt(run, i);
  }

  /**
   A wake by the driving thread itself leaves the poller alone exactly while that thread is inside
   the wait, and otherwise makes the next wait return at once. Both make the future ready to be polled.
   */
  lemma OwnWakesSkipTheSyscallInside(run: seq<State>, i: nat)
    requires IsRun(Init, Next, run) && i < |run|
    ensures var s, t := run[i], WakeByRef(run[i]);
            && t.ready && t.waiting == s.waiting && t.foreign == s.foreign
            && (if s.pc.Servicing? || s.pc.Waiting? || s.pc == Dispatching || s.pc == Failed
                then t.sticky == s.sticky else t.sticky)
  {
    InvAt(run, i);
  }
}
