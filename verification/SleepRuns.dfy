/**
 `Sleep` futures against the registry (src/time.rs): first poll and arm, re-poll with its two loads
 around the waker store, firing with its store and its waker take, delivery, and drop, each atomic
 operation a step. Which entries a firing takes is `TimerHeaps`; here each entry is on its own.
 */
module SleepRuns {
  import opened Common
  import opened Behaviours

  /** A sleep's position: never polled, past its look at the clock, returned pending, inside a re-poll, or ready. */
  datatype Pc = Fresh | Arming | Parked | Loaded | Stored | Done

  /**
   `pending` is membership in the registry; `firing` is the moment between the store of `fired` and
   the take of the waker; `due` says a firing holds the waker; `scheduled` that its owner was woken
   since its last poll began; `cancelled` that the future was dropped, which leaves its waker to be taken.
   */
  datatype Sleep = Sleep(deadline: nat, pc: Pc, armed: bool, pending: bool, fired: bool, waker: bool,
                         firing: bool, due: bool, scheduled: bool, cancelled: bool)

  datatype State = State(now: nat, sleeps: map<nat, Sleep>)

  datatype Label =
    | Create(id: nat, deadline: nat)
    | ReadClock(id: nat)
    | Arm(id: nat)
    | Load(id: nat)
    | Store(id: nat)
    | Reload(id: nat)
    | Fire(id: nat, at: nat)
    | Take(id: nat)
    | Deliver(id: nat)
    | Drop(id: nat)
    | DropWaker(id: nat)
    | Tick(to: nat)

  ghost predicate Enabled(s: State, l: Label) {
    match l
    case Create(id, _) => id !in s.sleeps
    case ReadClock(id) => id in s.sleeps && s.sleeps[id].pc == Fresh && !s.sleeps[id].cancelled
    case Arm(id) => id in s.sleeps && s.sleeps[id].pc == Arming
    case Load(id) => id in s.sleeps && s.sleeps[id].pc == Parked && !s.sleeps[id].cancelled
    case Store(id) => id in s.sleeps && s.sleeps[id].pc == Loaded
    case Reload(id) => id in s.sleeps && s.sleeps[id].pc == Stored
    case Fire(id, at) => id in s.sleeps && s.sleeps[id].pending && s.sleeps[id].deadline <= at <= s.now
    case Take(id) => id in s.sleeps && s.sleeps[id].firing
    case Deliver(id) => id in s.sleeps && s.sleeps[id].due
    case Drop(id) =>
      id in s.sleeps && !s.sleeps[id].cancelled && !s.sleeps[id].firing
      && s.sleeps[id].pc != Arming && s.sleeps[id].pc != Loaded && s.sleeps[id].pc != Stored
    case DropWaker(id) => id in s.sleeps && s.sleeps[id].cancelled
    case Tick(to) => s.now <= to
  }

  /** The deadline is checked against the clock before anything is armed. */
  function ClockRead(x: Sleep, now: nat): Sleep {
    x.(pc := if now >= x.deadline then Done else Arming)
  }

  /** The registry section: the slot, made with its waker, becomes pending. */
  function Armed(x: Sleep): Sleep {
    x.(pc := Parked, armed := true, pending := true, waker := true, scheduled := false)
  }

  function Do(s: State, l: Label): State
    requires Enabled(s, l)
  {
    match l
    case Create(id, deadline) =>
      s.(sleeps := s.sleeps[id := Sleep(deadline, Fresh, false, false, false, false, false, false, true, false)])
    case ReadClock(id) => s.(sleeps := s.sleeps[id := ClockRead(s.sleeps[id], s.now)])
    case Arm(id) => s.(sleeps := s.sleeps[id := Armed(s.sleeps[id])])
    case Load(id) =>
      var x := s.sleeps[id].(scheduled := false);
      s.(sleeps := s.sleeps[id := x.(pc := if x.fired then Done else Loaded)])
    case Store(id) => s.(sleeps := s.sleeps[id := s.sleeps[id].(pc := Stored, waker := true)])
    case Reload(id) => s.(sleeps := s.sleeps[id := s.sleeps[id].(pc := if s.sleeps[id].fired then Done else Parked)])
    case Fire(id, _) => s.(sleeps := s.sleeps[id := s.sleeps[id].(pending := false, fired := true, firing := true)])
    case Take(id) =>
      var x := s.sleeps[id];
      s.(sleeps := s.sleeps[id := x.(firing := false, waker := false, due := x.due || x.waker)])
    case Deliver(id) => s.(sleeps := s.sleeps[id := s.sleeps[id].(due := false, scheduled := true)])
    case Drop(id) => s.(sleeps := s.sleeps[id := s.sleeps[id].(pending := false, cancelled := true)])
    case DropWaker(id) => s.(sleeps := s.sleeps[id := s.sleeps[id].(waker := false)])
    case Tick(to) => s.(now := to)
  }

  ghost predicate Init(s: State) {
    s == State(s.now, map[])
  }

  ghost predicate Next(s: State, t: State) {
    exists l :: Enabled(s, l) && t == Do(s, l)
  }

  ghost predicate SleepOk(x: Sleep, now: nat) {
    && (x.pc == Fresh || x.pc == Arming ==> !x.armed)
    && (!x.armed ==> !x.pending && !x.fired && !x.waker && !x.firing && !x.due)
    && (x.armed ==> x.pending || x.fired || x.cancelled)
    && !(x.pending && x.fired) && !(x.pending && x.cancelled)
    && (x.firing ==> x.fired)
    && (x.fired ==> x.deadline <= now)
    && (x.pc == Done ==> x.deadline <= now)
    && (x.pc == Parked || x.pc == Loaded || x.pc == Stored ==> x.armed)
    && (x.cancelled ==> x.pc != Arming && x.pc != Loaded && x.pc != Stored && !x.firing)
    && (x.pc == Stored && !x.fired ==> x.waker)
    && (x.pc == Parked && !x.scheduled && !x.cancelled ==>
          if x.fired then (x.firing && x.waker) || x.due else x.waker)
  }

  ghost predicate Inv(s: State) {
    forall id :: id in s.sleeps ==> SleepOk(s.sleeps[id], s.now)
  }

  /** What a step does to its own sleep. */
  lemma OwnPollKeeps(s: State, l: Label)
    requires Inv(s) && Enabled(s, l) && (l.Create? || l.ReadClock? || l.Arm? || l.Load? || l.Store? || l.Reload?)
    ensures SleepOk(Do(s, l).sleeps[l.id], s.now)
  {
    if !l.Create? { assert SleepOk(s.sleeps[l.id], s.now); }
  }

  lemma OwnFiringKeeps(s: State, l: Label)
    requires Inv(s) && Enabled(s, l) && (l.Fire? || l.Take? || l.Deliver? || l.Drop? || l.DropWaker?)
    ensures SleepOk(Do(s, l).sleeps[l.id], s.now)
  {
    assert SleepOk(s.sleeps[l.id], s.now);
  }

  lemma OthersStay(s: State, l: Label, id: nat)
    requires Enabled(s, l) && !l.Tick? && id in Do(s, l).sleeps && id != l.id
    ensures Do(s, l).now == s.now && id in s.sleeps && Do(s, l).sleeps[id] == s.sleeps[id]
  {
  }

  lemma StepKeeps(s: State, l: Label)
    requires Inv(s) && Enabled(s, l)
    ensures Inv(Do(s, l))
  {
    var t := Do(s, l);
    if l.Tick? {
      forall id | id in t.sleeps ensures SleepOk(t.sleeps[id], t.now) { assert SleepOk(s.sleeps[id], s.now); }
    } else {
      if l.Fire? || l.Take? || l.Deliver? || l.Drop? || l.DropWaker? {
        OwnFiringKeeps(s, l);
      } else {
        OwnPollKeeps(s, l);
      }
      forall id | id in t.sleeps ensures SleepOk(t.sleeps[id], t.now) {
        if id != l.id { OthersStay(s, l, id); }
      }
    }
  }

  lemma InvAt(run: seq<State>, i: nat)
    requires IsRun(Init, Next, run) && i < |run|
    ensures Inv(run[i])
  {
    forall s, t | Inv(s) && Next(s, t) ensures Inv(t) {
      var l :| Enabled(s, l) && t == Do(s, l);
      StepKeeps(s, l);
    }
    Invariance(Init, Next, Inv, run);
  }

  /** An armed timer is pending, fired or cancelled, and never pending and something else. */
  lemma OneFate(run: seq<State>, i: nat, id: nat)
    requires IsRun(Init, Next, run) && i < |run| && id in run[i].sleeps && run[i].sleeps[id].armed
    ensures var x := run[i].sleeps[id]; if x.pending then !x.fired && !x.cancelled else x.fired || x.cancelled
  {
    InvAt(run, i);
    assert SleepOk(run[i].sleeps[id], run[i].now);
  }

  /** No sleep completes before the clock has reached its deadline. */
  lemma NeverEarly(run: seq<State>, i: nat, id: nat)
    requires IsRun(Init, Next, run) && i < |run| && id in run[i].sleeps && run[i].sleeps[id].pc == Done
    ensures run[i].sleeps[id].deadline <= run[i].now
  {
    InvAt(run, i);
    assert SleepOk(run[i].sleeps[id], run[i].now);
  }

  /** A firing that races a re-poll is not missed: a sleeping task whose timer fired is about to be woken. */
  lemma FiringIsNeverMissed(run: seq<State>, i: nat, id: nat)
    requires IsRun(Init, Next, run) && i < |run| && id in run[i].sleeps
    requires var x := run[i].sleeps[id]; x.pc == Parked && !x.scheduled && !x.cancelled
    ensures var x := run[i].sleeps[id];
            if x.fired then x.due || (x.firing && x.waker) else x.pending && x.waker
  {
    InvAt(run, i);
    assert SleepOk(run[i].sleeps[id], run[i].now);
  }

  // ---------- One sleep's calls ----------

  /** Another thread's firing at `at`, if there is one: the store of `fired` and the take of the waker. */
  function FiredAt(x: Sleep, at: Option<nat>): Sleep {
    if at.Some? && x.pending && x.deadline <= at.value then
      x.(pending := false, fired := true, firing := false, waker := false, due := x.due || x.waker)
    else x
  }

  /** A re-poll with a firing between its first load and its store, and another between store and second load. */
  function RePolled(x: Sleep, first: Option<nat>, second: Option<nat>): Sleep {
    var x0 := x.(scheduled := false);
    if x0.fired then x0.(pc := Done)
    else
      StoredAndLooked(FiredAt(x0.(pc := Loaded), first), second)
  }

  /** From the store of the waker to the second look at `fired`. */
  function StoredAndLooked(x: Sleep, second: Option<nat>): Sleep {
    var y := FiredAt(x.(pc := Stored, waker := true), second);
    y.(pc := if y.fired then Done else Parked)
  }

  function FirstPolled(x: Sleep, now: nat): Sleep {
    var y := ClockRead(x, now);
    if y.pc == Done then y else Armed(y)
  }

  function Dropped(x: Sleep): Sleep {
    x.(pending := false, waker := false, cancelled := true)
  }

  function With(s: State, id: nat, x: Sleep): State {
    s.(sleeps := s.sleeps[id := x])
  }

  /** The steps of such a firing, if it takes this sleep. */
  ghost function FireSteps(s: State, id: nat, at: Option<nat>): State
    requires id in s.sleeps && (at.Some? ==> at.value <= s.now)
  {
    if at.Some? && Enabled(s, Fire(id, at.value)) then Do(Do(s, Fire(id, at.value)), Take(id)) else s
  }

  lemma FiringIsItsSteps(s: State, id: nat, at: Option<nat>)
    requires id in s.sleeps && (at.Some? ==> at.value <= s.now)
    ensures FireSteps(s, id, at) == With(s, id, FiredAt(s.sleeps[id], at))
  {
    assert s.sleeps[id := s.sleeps[id]] == s.sleeps;
  }

  lemma RePollIsItsSteps(s: State, id: nat, first: Option<nat>, second: Option<nat>)
    requires Enabled(s, Load(id))
    requires (first.Some? ==> first.value <= s.now) && (second.Some? ==> second.value <= s.now)
    ensures var t1 := Do(s, Load(id));
            var t2 := if t1.sleeps[id].pc == Done then t1 else Do(FireSteps(t1, id, first), Store(id));
            var t3 := if t2.sleeps[id].pc == Done then t2 else Do(FireSteps(t2, id, second), Reload(id));
            t3 == With(s, id, RePolled(s.sleeps[id], first, second))
  {
    var t1 := Do(s, Load(id));
    if t1.sleeps[id].pc != Done {
      FiringIsItsSteps(t1, id, first);
      FiringIsItsSteps(Do(FireSteps(t1, id, first), Store(id)), id, second);
    }
  }

  /** The steps of a first poll and of a drop, run back to back, are one whole call each. */
  lemma FirstPollAndDropAreSteps(s: State, id: nat)
    ensures Enabled(s, ReadClock(id)) ==>
              var t := Do(s, ReadClock(id));
              (if t.sleeps[id].pc == Done then t else Do(t, Arm(id))) == With(s, id, FirstPolled(s.sleeps[id], s.now))
    ensures Enabled(s, Drop(id)) ==>
              Do(Do(s, Drop(id)), DropWaker(id)) == With(s, id, Dropped(s.sleeps[id]))
  {
  }
}
