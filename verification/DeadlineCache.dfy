/**
 The cached deadline of a reactor (src/reactor/driver.rs, `timer_armed` and `service_timers`) over
 the timer registry (src/time.rs, `arm` and `fire_due`). Each atomic operation and each lock
 section is a step; arms by any number of threads, drops, firings by others and the reactor's own
 loop interleave freely. One reactor services the timers, and its poller's wake is sticky.
 */
module DeadlineCache {
  import opened Common
  import opened Behaviours
  import opened PendingTimers

  /** An arm that was the earliest, on its way through `timer_armed`. */
  datatype Arm = Pushed(deadline: nat) | Comparing(deadline: nat, seen: nat) | Lowered(deadline: nat)

  /** The servicing loop; `until` is the deadline its wait is computed for. */
  datatype Pc =
    | Idle
    | Loaded(cached: nat)
    | Draining(at: nat)
    | Swapped(at: nat)
    | Fired(at: nat, next: nat)
    | Merged
    | Ready(until: nat)
    | Blocked(until: nat)

  datatype State = State(heap: Timers, cache: nat, arms: map<nat, Arm>, sticky: bool, now: nat, pc: Pc)

  datatype Label =
    | ArmTimer(id: nat, deadline: nat)
    | ArmLoad(id: nat)
    | ArmExchange(id: nat)
    | ArmWake(id: nat)
    | Drop(id: nat)
    | FireElsewhere(at: nat)
    | Tick(to: nat)
    | Load
    | ReadClock
    | Swap
    | Fire(next: nat)
    | FetchMin
    | Reload
    | Block(until: nat)
    | Return(consumes: bool)

  ghost predicate Enabled(s: State, l: Label) {
    match l
    case ArmTimer(id, deadline) => id !in s.heap && id !in s.arms && deadline <= NO_DEADLINE
    case ArmLoad(id) => id in s.arms && s.arms[id].Pushed?
    case ArmExchange(id) => id in s.arms && s.arms[id].Comparing?
    case ArmWake(id) => id in s.arms && s.arms[id].Lowered?
    case Drop(id) => id in s.heap && id !in s.arms
    case FireElsewhere(at) => at <= s.now
    case Tick(to) => s.now <= to
    case Load => s.pc == Idle
    case ReadClock => s.pc.Loaded?
    case Swap => s.pc.Draining?
    case Fire(next) => s.pc.Swapped? && IsNext(Remaining(s.heap, s.pc.at), next, NO_DEADLINE)
    case FetchMin => s.pc.Fired?
    case Reload => s.pc == Merged
    case Block(until) => s.pc.Ready? && until <= s.pc.until
    case Return(_) => s.pc.Blocked?
  }

  /** The registry section of an arm; only the earliest goes on to tell the reactor. */
  ghost function DoArm(s: State, id: nat, deadline: nat): State {
    s.(heap := s.heap[id := deadline],
       arms := if IsEarliest(s.heap, deadline) then s.arms[id := Pushed(deadline)] else s.arms)
  }

  /** The compare loop of `timer_armed` after it has read `seen`. */
  function Compare(s: State, id: nat, deadline: nat, seen: nat): State {
    s.(arms := if seen <= deadline then s.arms - {id} else s.arms[id := Comparing(deadline, seen)])
  }

  function DoArmExchange(s: State, id: nat): State
    requires id in s.arms && s.arms[id].Comparing?
  {
    var d := s.arms[id].deadline;
    if s.cache == s.arms[id].seen then s.(cache := d, arms := s.arms[id := Lowered(d)])
    else Compare(s, id, d, s.cache)
  }

  /** A cached deadline still ahead is waited for; otherwise the registry is drained. */
  function DoReadClock(s: State): State
    requires s.pc.Loaded?
  {
    s.(pc := if s.pc.cached != NO_DEADLINE && s.pc.cached > s.now then Ready(s.pc.cached) else Draining(s.now))
  }

  ghost function Do(s: State, l: Label): State
    requires Enabled(s, l)
  {
    match l
    case ArmTimer(id, deadline) => DoArm(s, id, deadline)
    case ArmLoad(id) => Compare(s, id, s.arms[id].deadline, s.cache)
    case ArmExchange(id) => DoArmExchange(s, id)
    case ArmWake(id) => s.(sticky := true, arms := s.arms - {id})
    case Drop(id) => s.(heap := s.heap - {id})
    case FireElsewhere(at) => s.(heap := Remaining(s.heap, at))
    case Tick(to) => s.(now := to)
    case Load => s.(pc := Loaded(s.cache))
    case ReadClock => DoReadClock(s)
    case Swap => s.(cache := NO_DEADLINE, pc := Swapped(s.pc.at))
    case Fire(next) => s.(heap := Remaining(s.heap, s.pc.at), pc := Fired(s.pc.at, next))
    case FetchMin => s.(cache := Min(s.cache, s.pc.next), pc := Merged)
    case Reload => s.(pc := Ready(s.cache))
    case Block(until) => s.(pc := Blocked(until))
    case Return(consumes) => s.(pc := Idle, sticky := s.sticky && !consumes)
  }

  ghost predicate Init(s: State) {
    s == State(map[], NO_DEADLINE, map[], false, s.now, Idle)
  }

  ghost predicate Next(s: State, t: State) {
    exists l :: Enabled(s, l) && t == Do(s, l)
  }

  // ---------- The invariant ----------

  /** An arm that has not reached the cache yet and is no later than anything pending. */
  ghost predicate Carries(s: State, id: nat) {
    id in s.arms && !s.arms[id].Lowered? && NoneBefore(s.heap, s.arms[id].deadline)
  }

  /** `c` is no later than anything pending, or an arm in flight carries a deadline that is. */
  ghost predicate Covered(s: State, c: nat) {
    NoneBefore(s.heap, c) || exists id :: Carries(s, id)
  }

  /** A wake of the poller is pending, or an arm that lowered the cache is about to issue it. */
  ghost predicate WakeComing(s: State) {
    s.sticky || exists id :: id in s.arms && s.arms[id].Lowered?
  }

  /** The deadline the loop is committed to waiting for. */
  ghost predicate Committed(pc: Pc, until: nat) {
    pc == Loaded(until) || pc == Ready(until) || pc == Blocked(until)
  }

  ghost predicate Inv(s: State) {
    && s.cache <= NO_DEADLINE
    && (forall id :: id in s.heap ==> s.heap[id] <= NO_DEADLINE)
    && (forall id :: id in s.arms ==> s.arms[id].deadline <= NO_DEADLINE)
    && (forall id :: id in s.arms && s.arms[id].Comparing? ==> s.arms[id].deadline < s.arms[id].seen)
    && (!s.pc.Swapped? && !s.pc.Fired? ==> Covered(s, s.cache))
    && (s.pc.Fired? ==> s.pc.next <= NO_DEADLINE && Covered(s, Min(s.cache, s.pc.next)))
    && (forall until: nat :: Committed(s.pc, until) ==> until <= s.cache || WakeComing(s))
  }

  /** Fewer timers, or one more that is not earlier than one pending, need no new cover. */
  lemma CoverKept(s: State, t: State, c: nat)
    requires Covered(s, c) && t.arms == s.arms
    requires forall id :: id in t.heap ==> exists other :: other in s.heap && s.heap[other] <= t.heap[id]
    ensures Covered(t, c)
  {
    if !NoneBefore(s.heap, c) {
      var id :| Carries(s, id);
      assert Carries(t, id);
    }
  }

  lemma ArmKeeps(s: State, id: nat, deadline: nat)
    requires Inv(s) && Enabled(s, ArmTimer(id, deadline))
    ensures Inv(Do(s, ArmTimer(id, deadline)))
  {
    var t := DoArm(s, id, deadline);
    if IsEarliest(s.heap, deadline) {
      assert Carries(t, id);
    } else {
      var other :| other in s.heap && s.heap[other] <= deadline;
      forall x | x in t.heap ensures exists y :: y in s.heap && s.heap[y] <= t.heap[x] {
        if x != id { assert x in s.heap && s.heap[x] <= t.heap[x]; }
      }
      if s.pc.Fired? { CoverKept(s, t, Min(s.cache, s.pc.next)); }
      else if !s.pc.Swapped? { CoverKept(s, t, s.cache); }
    }
    assert WakeComing(s) ==> WakeComing(t) by {
      if WakeComing(s) && !s.sticky {
        var x :| x in s.arms && s.arms[x].Lowered?;
        assert x in t.arms && t.arms[x].Lowered?;
      }
    }
  }

  lemma RemovalKeeps(s: State, l: Label)
    requires Inv(s) && Enabled(s, l) && (l.Drop? || l.FireElsewhere? || l.Tick?)
    ensures Inv(Do(s, l))
  {
    var t := Do(s, l);
    forall x | x in t.heap ensures exists y :: y in s.heap && s.heap[y] <= t.heap[x] {
      assert x in s.heap && s.heap[x] <= t.heap[x];
    }
    if s.pc.Fired? { CoverKept(s, t, Min(s.cache, s.pc.next)); }
    else if !s.pc.Swapped? { CoverKept(s, t, s.cache); }
    assert WakeComing(s) ==> WakeComing(t);
  }

  /** An arm leaves the loop only beside a cache that is early enough, or by lowering it. */
  lemma ArmLoopKeeps(s: State, l: Label)
    requires Inv(s) && Enabled(s, l) && (l.ArmLoad? || l.ArmExchange? || l.ArmWake?)
    ensures Inv(Do(s, l))
  {
    var t := Do(s, l);
    if s.pc.Fired? { CoverThroughLoop(s, l, Min(s.cache, s.pc.next)); }
    else if !s.pc.Swapped? { CoverThroughLoop(s, l, s.cache); }
    WakeThroughLoop(s, l);
  }

  lemma CoverThroughLoop(s: State, l: Label, c: nat)
    requires Inv(s) && Enabled(s, l) && (l.ArmLoad? || l.ArmExchange? || l.ArmWake?)
    requires Covered(s, c)
    ensures Covered(Do(s, l), Min(Do(s, l).cache, c))
  {
    var t := Do(s, l);
    if !NoneBefore(s.heap, c) {
      var id :| Carries(s, id);
      if id != l.id || (id in t.arms && !t.arms[id].Lowered?) { assert Carries(t, id); }
    }
  }

  lemma WakeThroughLoop(s: State, l: Label)
    requires Inv(s) && Enabled(s, l) && (l.ArmLoad? || l.ArmExchange? || l.ArmWake?)
    ensures WakeComing(s) ==> WakeComing(Do(s, l))
    ensures Do(s, l).cache < s.cache ==> WakeComing(Do(s, l))
    ensures Do(s, l).cache <= s.cache
  {
    var t := Do(s, l);
    if l.ArmExchange? && s.cache == s.arms[l.id].seen { assert l.id in t.arms && t.arms[l.id].Lowered?; }
    if WakeComing(s) && !t.sticky {
      var x :| x in s.arms && s.arms[x].Lowered?;
      assert x in t.arms && t.arms[x].Lowered?;
    }
  }

  /** Firing starts a new cover: the earliest deadline that is left. */
  lemma FireKeeps(s: State, next: nat)
    requires Inv(s) && Enabled(s, Fire(next))
    ensures Inv(Do(s, Fire(next)))
  {
    var t := Do(s, Fire(next));
    assert NoneBefore(t.heap, Min(t.cache, next));
    assert next <= NO_DEADLINE by {
      if next != NO_DEADLINE {
        var id :| id in t.heap && t.heap[id] == next;
        assert id in s.heap;
      }
    }
    forall id | id in t.heap ensures t.heap[id] <= NO_DEADLINE { assert id in s.heap; }
  }

  /** The loop's other steps change neither the registry nor the arms. */
  lemma LoopKeeps(s: State, l: Label)
    requires Inv(s) && Enabled(s, l)
    requires l.Load? || l.ReadClock? || l.Swap? || l.FetchMin? || l.Reload? || l.Block? || l.Return?
    ensures Inv(Do(s, l))
  {
    var t := Do(s, l);
    assert t.arms == s.arms && t.heap == s.heap;
    SameCover(s, t);
    if l.Block? { assert Committed(s.pc, s.pc.until); }
    if l.ReadClock? { assert Committed(s.pc, s.pc.cached); }
    assert !l.Return? ==> (WakeComing(s) ==> WakeComing(t));
  }

  lemma SameCover(s: State, t: State)
    requires t.arms == s.arms && t.heap == s.heap
    ensures forall c :: Covered(s, c) ==> Covered(t, c)
  {
    forall c | Covered(s, c) ensures Covered(t, c) {
      if !NoneBefore(s.heap, c) {
        var id :| Carries(s, id);
        assert Carries(t, id);
      }
    }
  }

  lemma StepKeeps(s: State, l: Label)
    requires Inv(s) && Enabled(s, l)
    ensures Inv(Do(s, l))
  {
    match l
    case ArmTimer(id, deadline) => ArmKeeps(s, id, deadline);
    case ArmLoad(_) => ArmLoopKeeps(s, l);
    case ArmExchange(_) => ArmLoopKeeps(s, l);
    case ArmWake(_) => ArmLoopKeeps(s, l);
    case Drop(_) => RemovalKeeps(s, l);
    case FireElsewhere(_) => RemovalKeeps(s, l);
    case Tick(_) => RemovalKeeps(s, l);
    case Fire(next) => FireKeeps(s, next);
    case _ => LoopKeeps(s, l);
  }

  lemma InvAt(run: seq<State>, i: nat)
    requires IsRun(Init, Next, run) && i < |run|
    ensures Inv(run[i])
  {
    forall s, t | Inv(s) && Next(s, t) ensures Inv(t) {
      var l :| Enabled(s, l) && t == Do(s, l);
      StepKeeps(s, l);
    }
    Invariance(Init, Next, Inv, run);
  }

  /** Outside the window between swap and fetch-min, the cache covers every pending timer. */
  lemma CacheCoversTimers(run: seq<State>, i: nat, id: nat)
    requires IsRun(Init, Next, run) && i < |run| && id in run[i].heap
    requires !run[i].pc.Swapped? && !run[i].pc.Fired?
    ensures run[i].cache <= run[i].heap[id] || exists arm :: Carries(run[i], arm)
  {
    InvAt(run, i);
  }

  /**
   A reactor blocked for longer than some pending timer has a wake pending or coming: from an arm
   that lowered the cache, or from one in flight that is no later than any pending timer.
   */
  lemma NeverSleepsPastATimer(run: seq<State>, i: nat, id: nat)
    requires IsRun(Init, Next, run) && i < |run| && id in run[i].heap
    requires run[i].pc.Blocked? && run[i].heap[id] < run[i].pc.until
    ensures WakeComing(run[i]) || exists arm :: Carries(run[i], arm)
  {
    InvAt(run, i);
    assert Committed(run[i].pc, run[i].pc.until);
  }

  /**
   While the reactor is blocked past its deadline, an arm in flight cannot give up: it goes on until
   it has lowered the cache.
   */
  lemma ArmsInFlightWillWake(s: State, l: Label, arm: nat)
    requires Inv(s) && Enabled(s, l) && s.pc.Blocked? && !WakeComing(s)
    requires arm in s.arms && s.arms[arm].deadline < s.pc.until
    requires (l.ArmLoad? || l.ArmExchange?) && l.id == arm
    ensures arm in Do(s, l).arms
            && (Do(s, l).arms[arm].Lowered? || Do(s, l).arms[arm].seen == s.cache > s.arms[arm].deadline)
  {
    assert Committed(s.pc, s.pc.until);
  }

  // ---------- One thread's calls, run alone ----------

  /** The compare loop of `timer_armed`: the cache afterwards, and whether the poller is woken. */
  function LowerAlone(cache: nat, deadline: nat): (nat, bool) {
    if cache <= deadline then (cache, false) else (deadline, true)
  }

  /** An arm from the registry section to the wake. */
  ghost function ArmAlone(s: State, id: nat, deadline: nat): State {
    var (cache, wake) := if IsEarliest(s.heap, deadline) then LowerAlone(s.cache, deadline) else (s.cache, false);
    s.(heap := s.heap[id := deadline], cache := cache, sticky := s.sticky || wake)
  }

  lemma ArmIsItsSteps(s: State, id: nat, deadline: nat)
    requires Enabled(s, ArmTimer(id, deadline))
    ensures var t1 := Do(s, ArmTimer(id, deadline));
            var t2 := if id in t1.arms then Do(t1, ArmLoad(id)) else t1;
            var t3 := if id in t2.arms then Do(t2, ArmExchange(id)) else t2;
            var t4 := if id in t3.arms then Do(t3, ArmWake(id)) else t3;
            t4 == ArmAlone(s, id, deadline)
  {
    var t1 := Do(s, ArmTimer(id, deadline));
    assert t1.arms - {id} == s.arms;
    if id in t1.arms && s.cache > deadline {
      var t2 := Do(t1, ArmLoad(id));
      var t3 := Do(t2, ArmExchange(id));
      assert t3.arms - {id} == s.arms;
    }
  }

  /** `service_timers`: the timers and the cache afterwards. */
  ghost function ServiceAlone(heap: Timers, cache: nat, now: nat): (Timers, nat) {
    if cache != NO_DEADLINE && cache > now then (heap, cache)
    else
      var left := Remaining(heap, now);
      (left, Min(NO_DEADLINE, NextOf(left, NO_DEADLINE)))
  }

  /** A pass changes nothing while the cache is ahead; else it leaves what is not due and caches the earliest. */
  lemma ServiceDecides(heap: Timers, cache: nat, now: nat)
    requires cache <= NO_DEADLINE && forall id :: id in heap ==> heap[id] <= NO_DEADLINE
    ensures var (left, next) := ServiceAlone(heap, cache, now);
            if now < cache < NO_DEADLINE then left == heap && next == cache
            else
              && (forall id :: id in left <==> id in heap && now < heap[id])
              && (forall id :: id in left ==> left[id] == heap[id] && next <= left[id])
              && (next == NO_DEADLINE || exists id :: id in left && left[id] == next)
  {
    var left := Remaining(heap, now);
    if left != map[] { assert IsNext(left, NextOf(left, NO_DEADLINE), NO_DEADLINE); }
  }

  lemma ServiceIsItsSteps(s: State)
    requires s.pc == Idle
    ensures var (heap, cache) := ServiceAlone(s.heap, s.cache, s.now);
            var t1 := Do(Do(s, Load), ReadClock);
            var t2 := if t1.pc.Ready? then t1
                      else
                        var fired := Do(Do(t1, Swap), Fire(NextOf(Remaining(s.heap, s.now), NO_DEADLINE)));
                        Do(Do(fired, FetchMin), Reload);
            t2 == s.(heap := heap, cache := cache, pc := Ready(cache))
  {
  }

  /**
   The rounds of `timer_armed` after its load: others make the cache `found[0]`, then the exchange
   fails or is retried.
   */
  ghost function ArmRounds(s: State, id: nat, found: seq<nat>): State
    decreases |found|
  {
    if !Enabled(s, ArmExchange(id)) then s
    else if found == [] then Do(s, ArmExchange(id))
    else
      var u := s.(cache := found[0]);
      ArmRounds(if found[0] == s.arms[id].seen then u else Do(u, ArmExchange(id)), id, found[1..])
  }

  /** What the object's `TimerArmed` promises, of a loop that has seen `seen`. */
  ghost predicate ArmEnds(t: State, id: nat, deadline: nat, seen: seq<nat>) {
    if forall v :: v in seen ==> deadline < v then
      t.cache == deadline && id in t.arms && t.arms[id] == Lowered(deadline)
    else t.cache in seen && t.cache <= deadline && id !in t.arms
  }

  lemma {:induction false} ArmRoundsEnd(s: State, id: nat, found: seq<nat>)
    requires Enabled(s, ArmExchange(id)) && s.arms[id].seen == s.cache && s.arms[id].deadline < s.cache
    ensures ArmEnds(ArmRounds(s, id, found), id, s.arms[id].deadline, [s.cache] + found)
    decreases |found|
  {
    if found != [] {
      var u := s.(cache := found[0]);
      var next := if found[0] == s.cache then u else Do(u, ArmExchange(id));
      assert ArmRounds(s, id, found) == ArmRounds(next, id, found[1..]);
      assert forall v :: v in [s.cache] + found <==> v == s.cache || v in [found[0]] + found[1..];
      if s.arms[id].deadline < found[0] {
        ArmRoundsEnd(next, id, found[1..]);
      } else {
        assert found[0] in [s.cache] + found;
        assert ArmRounds(next, id, found[1..]) == next;
      }
    }
  }

  /** The load and exchanges of one arm, under whatever its failing exchanges find, are the object's `TimerArmed`. */
  lemma TimerArmedIsItsSteps(s: State, id: nat, found: seq<nat>)
    requires Enabled(s, ArmLoad(id))
    ensures var deadline := s.arms[id].deadline;
            s.cache <= deadline || ArmEnds(ArmRounds(Do(s, ArmLoad(id)), id, found), id, deadline, [s.cache] + found)
    ensures s.cache <= s.arms[id].deadline ==> Do(s, ArmLoad(id)) == s.(arms := s.arms - {id})
  {
    if s.cache > s.arms[id].deadline { ArmRoundsEnd(Do(s, ArmLoad(id)), id, found); }
  }
}
