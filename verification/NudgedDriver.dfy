/**
 The dedicated timer thread (src/time.rs, module `driver`): `nudge` sets a flag under the lock and
 signals after releasing it; `run` polls the registry, checks the flag under the lock and waits.
 */
module NudgedDriver {
  import opened Common
  import opened Behaviours
  import opened PendingTimers

  /** An arm that was the earliest: pushed, then flagged, then signalled and done. */
  datatype Arm = Pushed | Flagged

  /** The thread; `until` is the deadline its timed wait is for, or nothing for an untimed one. */
  datatype Pc = Polling | Polled(next: Option<nat>) | Asleep(until: Option<nat>) | Woken

  datatype State = State(heap: Timers, arms: map<nat, Arm>, nudged: bool, now: nat, pc: Pc)

  datatype Label =
    | ArmTimer(id: nat, deadline: nat)
    | Flag(id: nat)
    | Signal(id: nat)
    | Drop(id: nat)
    | FireElsewhere(at: nat)
    | Tick(to: nat)
    | Poll
    | Lock
    | WakeUp
    | Relock

  ghost predicate Enabled(s: State, l: Label) {
    match l
    case ArmTimer(id, _) => id !in s.heap && id !in s.arms
    case Flag(id) => id in s.arms && s.arms[id] == Pushed
    case Signal(id) => id in s.arms && s.arms[id] == Flagged
    case Drop(id) => id in s.heap && id !in s.arms
    case FireElsewhere(at) => at <= s.now
    case Tick(to) => s.now <= to
    case Poll => s.pc == Polling
    case Lock => s.pc.Polled?
    case WakeUp => s.pc.Asleep?
    case Relock => s.pc == Woken
  }

  ghost function DoArm(s: State, id: nat, deadline: nat): State {
    s.(heap := s.heap[id := deadline], arms := if IsEarliest(s.heap, deadline) then s.arms[id := Pushed] else s.arms)
  }

  /** `poll(now_ns())`: fires what is due and reports the earliest deadline left. */
  ghost function DoPoll(s: State): State {
    var left := Remaining(s.heap, s.now);
    var next := if left == map[] then None else Some(MinOf(left));
    s.(heap := left, pc := Polled(next))
  }

  /** The section under the lock: a nudge or a deadline already due goes round again, otherwise the wait begins. */
  function DoLock(s: State): State
    requires s.pc.Polled?
  {
    if s.nudged then s.(nudged := false, pc := Polling)
    else if s.pc.next.Some? && s.pc.next.value <= s.now then s.(pc := Polling)
    else s.(pc := Asleep(s.pc.next))
  }

  ghost function Do(s: State, l: Label): State
    requires Enabled(s, l)
  {
    match l
    case ArmTimer(id, deadline) => DoArm(s, id, deadline)
    case Flag(id) => s.(nudged := true, arms := s.arms[id := Flagged])
    case Signal(id) => s.(arms := s.arms - {id}, pc := if s.pc.Asleep? then Woken else s.pc)
    case Drop(id) => s.(heap := s.heap - {id})
    case FireElsewhere(at) => s.(heap := Remaining(s.heap, at))
    case Tick(to) => s.(now := to)
    case Poll => DoPoll(s)
    case Lock => DoLock(s)
    case WakeUp => s.(pc := Woken)
    case Relock => s.(nudged := false, pc := Polling)
  }

  ghost predicate Init(s: State) {
    s == State(map[], map[], false, s.now, Polling)
  }

  ghost predicate Next(s: State, t: State) {
    exists l :: Enabled(s, l) && t == Do(s, l)
  }

  ghost predicate CoveredBy(heap: Timers, until: Option<nat>) {
    match until
    case None => heap == map[]
    case Some(d) => NoneBefore(heap, d)
  }

  ghost predicate ArmComing(s: State) {
    exists id :: id in s.arms
  }

  ghost predicate FlagComing(s: State) {
    exists id :: id in s.arms && s.arms[id] == Pushed
  }

  /** What the thread decided on still covers every timer, or a nudge that will tell it otherwise is on its way. */
  ghost predicate Inv(s: State) {
    && (s.pc.Polled? ==> CoveredBy(s.heap, s.pc.next) || s.nudged || FlagComing(s))
    && (s.pc.Asleep? ==> CoveredBy(s.heap, s.pc.until) || ArmComing(s))
  }

  lemma StepKeeps(s: State, l: Label)
    requires Inv(s) && Enabled(s, l)
    ensures Inv(Do(s, l))
  {
    var t := Do(s, l);
    match l
    case ArmTimer(id, deadline) => ArmKeeps(s, id, deadline);
    case Flag(id) => assert id in t.arms;
    case Signal(id) =>
      if FlagComing(s) {
        var other :| other in s.arms && s.arms[other] == Pushed;
        assert other in t.arms && t.arms[other] == Pushed;
      }
    case Poll => if t.heap != map[] { assert NoneBefore(t.heap, MinOf(t.heap)); }
    case _ =>
      assert t.arms == s.arms;
      assert FlagComing(s) ==> FlagComing(t) && ArmComing(t);
      assert ArmComing(s) ==> ArmComing(t);
  }

  lemma ArmKeeps(s: State, id: nat, deadline: nat)
    requires Inv(s) && Enabled(s, ArmTimer(id, deadline))
    ensures Inv(DoArm(s, id, deadline))
  {
    var t := DoArm(s, id, deadline);
    if IsEarliest(s.heap, deadline) {
      assert id in t.arms && t.arms[id] == Pushed;
    } else {
      var other :| other in s.heap && s.heap[other] <= deadline;
      assert t.arms == s.arms;
    }
  }

  lemma InvAt(run: seq<State>, i: nat)
    requires IsRun(Init, Next, run) && i < |run|
    ensures Inv(run[i])
  {
    forall s, t | Inv(s) && Next(s, t) ensures Inv(t) {
      var l :| Enabled(s, l) && t == Do(s, l);
      StepKeeps(s, l);
    }
    Invariance(Init, Next, Inv, run);
  }

  /** A thread asleep past a pending timer has an arm on the way that has yet to signal it. */
  lemma NeverSleepsPastATimer(run: seq<State>, i: nat, id: nat)
    requires IsRun(Init, Next, run) && i < |run| && id in run[i].heap && run[i].pc.Asleep?
    requires run[i].pc.until.None? || run[i].heap[id] < run[i].pc.until.value
    ensures exists arm :: arm in run[i].arms
  {
    InvAt(run, i);
  }
}
