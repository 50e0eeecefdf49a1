/**
 The cached deadline (src/reactor/driver.rs) with the timer heap behind it, as objects: arming,
 servicing, the length of the wait that follows, and the sleeping future. The methods compute the
 functions that `DeadlineCache` and `SleepRuns` prove to be their steps.
 */
module Reactors {
  import opened Common
  import opened TimerHeaps
  import opened PendingTimers
  import opened TimerViews
  import DeadlineCache
  import SleepRuns

  /** How long from `now` to the cached deadline; the sentinel means there is nothing to wait for. */
  function Until(cached: nat, now: nat): Option<nat> {
    if cached == NO_DEADLINE then None else if cached < now then Some(0) else Some(cached - now)
  }

  function Shorter(a: Option<nat>, b: Option<nat>): Option<nat> {
    if a.None? then b else if b.None? then a else if a.value < b.value then a else b
  }

  lemma NumbersBelow(before: seq<Entry>, after: seq<Entry>, added: Entry, bound: nat)
    requires Members(after) == Members(before) + {added} && added.order < bound
    requires forall e :: e in before ==> e.order < bound
    ensures forall e :: e in after ==> e.order < bound
  {
    forall e | e in after ensures e.order < bound {
      assert e in Members(after);
    }
  }

  /** Whether announced or not, an arm leaves a cache that is no later than anything pending. */
  lemma CoverAfterArm(before: seq<Entry>, after: seq<Entry>, added: Entry, cache: nat, cache': nat)
    requires Numbered(before) && Members(after) == Members(before) + {added} && added.deadline <= NO_DEADLINE
    requires forall e :: e in before ==> cache <= e.deadline <= NO_DEADLINE
    requires cache' == if IsEarliest(TimersOf(before), added.deadline)
             then DeadlineCache.LowerAlone(cache, added.deadline).0
                       else cache
    ensures forall e :: e in after ==> cache' <= e.deadline <= NO_DEADLINE
  {
    EarliestDeadline(Members(before), added.deadline);
    forall e | e in after ensures cache' <= e.deadline <= NO_DEADLINE {
      assert e in Members(after);
      if e in Members(before) {
        assert e in before;
      } else if !IsEarliest(TimersOf(before), added.deadline) {
        var other :| other in Members(before) && other.deadline <= added.deadline;
        assert other in before;
      }
    }
  }

  /** The pending timers, which are one for the whole process, and the next registration number. */
  class Registry {
    const heap: TimerHeap
    var sequence: nat

    ghost predicate Valid()
      reads this, heap, heap.Slots()
    {
      heap.Valid() && Numbered(heap.entries) && forall e :: e in heap.entries ==> e.order < sequence
    }

    ghost function Timers(): Timers
      reads heap
      requires Numbered(heap.entries)
    {
      TimersOf(heap.entries)
    }

    constructor ()
      ensures fresh(heap) && Valid() && heap.entries == []
    {
      heap := new TimerHeap();
      sequence := 0;
    }

    /** A registration number nobody has. */
    method NextNumber() returns (order: nat)
      requires Valid()
      modifies this`sequence
      ensures Valid() && heap.Valid() && Numbered(heap.entries) && Timers() == old(Timers())
      ensures order == old(sequence) && sequence == order + 1 && forall e :: e in heap.entries ==> e.order < order
    {
      order := sequence;
      sequence := sequence + 1;
    }

    /** The registry half of an arm. */
    method Register(deadline: nat, slot: Slot) returns (earliest: bool)
      requires Valid() && slot !in heap.Slots() && |heap.entries| + 1 < NOT_QUEUED
      modifies this`sequence, heap, heap.Slots(), slot
      ensures Valid() && sequence == old(sequence) + 1
      ensures heap.Slots() == old(heap.Slots()) + {slot}
      ensures Members(heap.entries) == old(Members(heap.entries)) + {Entry(deadline, old(sequence), slot)}
      ensures Timers() == old(Timers())[old(sequence) := deadline]
      ensures earliest <==> IsEarliest(old(Timers()), deadline)
      ensures forall s :: s in heap.Slots() ==> s.fired == old(s.fired) && s.waker == old(s.waker)
    {
      ghost var before := heap.entries;
      var order := NextNumber();
      earliest := heap.Arm(deadline, order, slot);
      ArmIsASection(before, heap.entries, Entry(deadline, order, slot));
      NumbersBelow(before, heap.entries, Entry(deadline, order, slot), sequence);
    }

    /** The registry half of a servicing pass. */
    method Fire(now: nat) returns (next: nat, due: seq<WakerId>, ghost woken: seq<Entry>)
      requires Valid()
      modifies heap, heap.Slots()
      ensures Valid() && Timers() == Remaining(old(Timers()), now) && next == NextOf(Timers(), NO_DEADLINE)
      ensures forall e :: e in heap.entries ==> e in old(heap.entries) && now < e.deadline && next <= e.deadline
      ensures heap.Woke(due, woken, now)
    {
      var first;
      first, due, woken := FireDue(now);
      next := if first.Some? then first.value else NO_DEADLINE;
      assert heap.entries != [] ==> heap.entries[0] in heap.entries;
    }

    /** Takes the entry of `slot` out, if it is still there. */
    method Cancel(slot: Slot) returns (removed: Option<Entry>)
      requires Valid() && (slot.index == NOT_QUEUED || slot in heap.Slots())
      modifies heap, heap.Slots()
      ensures Valid() && slot !in heap.Slots() && slot.index == NOT_QUEUED
      ensures removed.None? <==> old(slot.index) == NOT_QUEUED
      ensures removed.Some? ==> removed.value.slot == slot
      ensures forall e :: e in heap.entries ==> e in old(heap.entries)
      ensures Timers() == if removed.Some? then old(Timers()) - {removed.value.order} else old(Timers())
      ensures forall s :: s in old(heap.Slots()) ==> s.fired == old(s.fired) && s.waker == old(s.waker)
    {
      ghost var before := heap.entries;
      removed := heap.Cancel(slot);
      if removed.Some? { CancelIsASection(before, heap.entries, removed.value); }
      assert forall e :: e in before <==> e in Members(before);
      assert forall e :: e in heap.entries <==> e in Members(heap.entries);
    }

    /** `fire_due` at `at`, this thread's or, between two operations of this thread, another's. */
    method FireDue(at: nat) returns (next: Option<nat>, due: seq<WakerId>, ghost woken: seq<Entry>)
      requires Valid()
      modifies heap, heap.Slots()
      ensures Valid() && Timers() == Remaining(old(Timers()), at)
      ensures (if next.Some? then next.value else NO_DEADLINE) == NextOf(Timers(), NO_DEADLINE)
      ensures next.Some? <==> heap.entries != []
      ensures forall e :: e in heap.entries ==> e in old(heap.entries) && at < e.deadline
      ensures forall e :: e in heap.entries && next.Some? ==> next.value <= e.deadline
      ensures heap.Slots() <= old(heap.Slots())
      ensures forall e :: e in old(heap.entries) && e.deadline <= at ==>
                e.slot !in heap.Slots() && e.slot.fired && e.slot.waker == None && e.slot.index == NOT_QUEUED
      ensures forall e :: e in old(heap.entries) && at < e.deadline ==>
                e in heap.entries && e.slot.fired == old(e.slot.fired) && e.slot.waker == old(e.slot.waker)
      ensures heap.Woke(due, woken, at)
    {
      ghost var before, fired := heap.entries, [];
      next, due, fired, woken := heap.FireDue(at);
      FireIsASection(before, heap.entries, fired, at, next, NO_DEADLINE);
      assert forall e :: e in before <==> e in Members(before);
      assert forall e :: e in fired <==> e in Members(fired);
      assert forall e :: e in heap.entries <==> e in Members(heap.entries);
    }
  }

  class Reactor {
    const registry: Registry
    var nextDeadline: nat

    /** No pending timer is before the cached deadline. */
    ghost predicate Covers()
      reads this`nextDeadline, registry.heap
    {
      && nextDeadline <= NO_DEADLINE
      && forall e :: e in registry.heap.entries ==> nextDeadline <= e.deadline <= NO_DEADLINE
    }

    constructor ()
      ensures fresh(registry) && fresh(registry.heap) && registry.Valid() && registry.heap.entries == []
      ensures Covers() && nextDeadline == NO_DEADLINE
    {
      registry := new Registry();
      nextDeadline := NO_DEADLINE;
    }

    /**
     `timer_armed`. `found` is what the failing exchanges find in the cache, one after the other;
     with none the call runs alone.
     */
    method TimerArmed(deadline: nat, found: seq<nat>) returns (wake: bool)
      modifies this`nextDeadline
      ensures wake <==> forall v :: v in [old(nextDeadline)] + found ==> deadline < v
      ensures wake ==> nextDeadline == deadline
      ensures !wake ==> nextDeadline <= deadline && nextDeadline in [old(nextDeadline)] + found
      ensures found == [] ==> (nextDeadline, wake) == DeadlineCache.LowerAlone(old(nextDeadline), deadline)
    {
      var current, round := nextDeadline, 0;
      while true
        invariant 0 <= round <= |found| && current == nextDeadline == ([old(nextDeadline)] + found)[round]
        invariant forall v :: v in ([old(nextDeadline)] + found)[..round] ==> deadline < v
        decreases |found| - round
      {
        ghost var seen := [old(nextDeadline)] + found;
        assert seen[..round + 1] == seen[..round] + [current];
        assert current in seen;
        if current <= deadline { return false; }
        if round == |found| {
          nextDeadline := deadline;
          assert seen[..round + 1] == seen;
          return true;
        }
        nextDeadline := found[round];
        current := nextDeadline;
        round := round + 1;
      }
    }

    /** An arm with its announcement: only a timer that is now the earliest is announced, which is enough. */
    method Arm(deadline: nat, slot: Slot) returns (wake: bool)
      requires registry.Valid() && slot !in registry.heap.Slots() && |registry.heap.entries| + 1 < NOT_QUEUED
      requires Covers() && deadline <= NO_DEADLINE
      modifies this`nextDeadline, registry`sequence, registry.heap, registry.heap.Slots(), slot
      ensures registry.Valid() && Covers() && registry.sequence == old(registry.sequence) + 1
      ensures registry.heap.Slots() == old(registry.heap.Slots()) + {slot}
      ensures Members(registry.heap.entries)
              == old(Members(registry.heap.entries)) + {Entry(deadline, old(registry.sequence), slot)}
      ensures registry.Timers() == old(registry.Timers())[old(registry.sequence) := deadline]
      ensures (nextDeadline, wake) == if IsEarliest(old(registry.Timers()), deadline)
              then DeadlineCache.LowerAlone(old(nextDeadline), deadline)
                                      else (old(nextDeadline), false)
      ensures wake <==> deadline < old(nextDeadline)
      ensures nextDeadline == if wake then deadline else old(nextDeadline)
      ensures forall s :: s in registry.heap.Slots() ==> s.fired == old(s.fired) && s.waker == old(s.waker)
    {
      ghost var before := registry.heap.entries;
      ghost var entry := Entry(deadline, registry.sequence, slot);
      var earliest := registry.Register(deadline, slot);
      wake := false;
      if earliest { wake := TimerArmed(deadline, []); }
      CoverAfterArm(before, registry.heap.entries, entry, old(nextDeadline), nextDeadline);
    }

    /**
     `service_timers`: afterwards nothing pending is due and the wait ends by every pending deadline.
     The registry is opened only when the cached deadline has come or there is none.
     */
    method ServiceTimers(now: nat) returns (wait: Option<nat>, due: seq<WakerId>, ghost woken: seq<Entry>)
      requires registry.Valid() && Covers()
      modifies this`nextDeadline, registry.heap, registry.heap.Slots()
      ensures registry.Valid() && Covers() && wait == Until(nextDeadline, now)
      ensures (registry.Timers(), nextDeadline)
              == DeadlineCache.ServiceAlone(old(registry.Timers()), old(nextDeadline), now)
      ensures forall e :: e in registry.heap.entries ==>
                now < e.deadline && (wait.Some? ==> now + wait.value <= e.deadline)
      ensures wait.None? <==> nextDeadline == NO_DEADLINE
      ensures wait.Some? ==> wait.value == if nextDeadline <= now then 0 else nextDeadline - now
      ensures wait.None? ==> forall e :: e in registry.heap.entries ==> e.deadline == NO_DEADLINE
      ensures now < old(nextDeadline) < NO_DEADLINE ==> registry.heap.entries == old(registry.heap.entries) && due == []
      ensures registry.heap.Woke(due, woken, now)
      ensures due == []
              <==> forall e :: e in old(registry.heap.entries) && e.deadline <= now ==> old(e.slot.waker).None?
    {
      var deadline := nextDeadline;
      if deadline != NO_DEADLINE && deadline > now {
        assert registry.heap.Woke([], [], now);
        return Some(deadline - now), [], [];
      }
      due, woken := Drain(now);
      wait := Reload(now);
    }

    /** How long the cache lets the thread wait, which is no longer than any pending timer allows. */
    method Reload(now: nat) returns (wait: Option<nat>)
      requires registry.Valid() && Covers() && forall e :: e in registry.heap.entries ==> now < e.deadline
      ensures wait == Until(nextDeadline, now)
      ensures wait.None? <==> nextDeadline == NO_DEADLINE
      ensures wait.Some? ==> wait.value == if nextDeadline <= now then 0 else nextDeadline - now
      ensures forall e :: e in registry.heap.entries ==> wait.Some? ==> now + wait.value <= e.deadline
      ensures wait.None? ==> forall e :: e in registry.heap.entries ==> e.deadline == NO_DEADLINE
    {
      var cached := nextDeadline;
      wait := if cached == NO_DEADLINE then None else Some(if cached < now then 0 else cached - now);
    }

    /** Clears the cache, fires what is due, then merges what is left into the cache. */
    method Drain(now: nat) returns (due: seq<WakerId>, ghost woken: seq<Entry>)
      requires registry.Valid() && Covers()
      modifies this`nextDeadline, registry.heap, registry.heap.Slots()
      ensures registry.Valid() && Covers() && forall e :: e in registry.heap.entries ==> now < e.deadline
      ensures registry.Timers() == Remaining(old(registry.Timers()), now)
      ensures nextDeadline == Min(NO_DEADLINE, NextOf(registry.Timers(), NO_DEADLINE))
      ensures registry.heap.Woke(due, woken, now)
    {
      SetCache(NO_DEADLINE);
      var next: nat;
      next, due, woken := registry.Fire(now);
      SetCache(if next < nextDeadline then next else nextDeadline);
    }

    /** A write of the cache; the registry is not its business. */
    method SetCache(deadline: nat)
      requires registry.Valid()
      modifies this`nextDeadline
      ensures registry.Valid() && registry.Timers() == old(registry.Timers()) && nextDeadline == deadline
      ensures registry.heap.entries == old(registry.heap.entries)
      ensures forall e :: e in registry.heap.entries ==> e.slot.waker == old(e.slot.waker)
    {
      nextDeadline := deadline;
    }

    /**
     The timeout of `poll_once_timeout`. A waker fired on the way may be for this very thread,
     whose wake then skips the syscall, so the wait must not block.
     */
    method Timeout(now: nat, cap: Option<nat>)
        returns (timeout: Option<nat>, due: seq<WakerId>, ghost woken: seq<Entry>)
      requires registry.Valid() && Covers()
      modifies this`nextDeadline, registry.heap, registry.heap.Slots()
      ensures registry.Valid() && Covers()
      ensures timeout == if cap == Some(0) || due != [] then Some(0) else Shorter(cap, Until(nextDeadline, now))
      ensures (registry.Timers(), nextDeadline) == if cap == Some(0) then (old(registry.Timers()), old(nextDeadline))
                                          else
                                            DeadlineCache.ServiceAlone(old(registry.Timers()), old(nextDeadline), now)
      ensures cap != Some(0) ==> forall e :: e in registry.heap.entries ==>
                now < e.deadline && (e.deadline < NO_DEADLINE ==> timeout.Some? && now + timeout.value <= e.deadline)
      ensures cap.Some? ==> timeout.Some? && timeout.value <= cap.value
      ensures due != [] ==> timeout == Some(0)
      ensures due == [] && timeout.Some? && timeout != cap ==>
                nextDeadline < NO_DEADLINE && timeout.value == if nextDeadline <= now then 0 else nextDeadline - now
      ensures due == [] && timeout.None? ==> cap.None? && nextDeadline == NO_DEADLINE
      ensures cap != Some(0) ==> registry.heap.Woke(due, woken, now)
      ensures due == []
              <==> cap == Some(0)
                   || forall e :: e in old(registry.heap.entries) && e.deadline <= now ==> old(e.slot.waker).None?
    {
      if cap == Some(0) { return Some(0), [], []; }
      var wait;
      wait, due, woken := ServiceTimers(now);
      if due != [] {
        timeout := Some(0);
      } else if cap.Some? && wait.Some? {
        timeout := if cap.value < wait.value then cap else wait;
      } else {
        timeout := if cap.Some? then cap else wait;
      }
    }
  }

  /** A sleeping future; its slot is made by the first poll that finds the deadline ahead. */
  class Sleep {
    const deadline: nat
    var slot: Option<Slot>

    /** The future's record in the protocol is this object with its slot and its place in the heap. */
    ghost predicate Mirrors(reactor: Reactor, x: SleepRuns.Sleep)
      reads this, reactor, reactor.registry, reactor.registry.heap, reactor.registry.heap.Slots()
      reads if slot.Some? then {slot.value} else {}
    {
      && reactor.registry.Valid() && reactor.Covers() && deadline <= NO_DEADLINE
      && x.deadline == deadline && x.armed == slot.Some? && !(x.pending && x.fired)
      && (slot.None? ==> !x.pending && !x.fired && !x.waker)
      && (slot.Some? ==>
            && x.fired == slot.value.fired && x.waker == slot.value.waker.Some?
            && x.pending == (slot.value in reactor.registry.heap.Slots())
            && (!x.pending ==> slot.value.index == NOT_QUEUED)
            && forall e :: e in reactor.registry.heap.entries && e.slot == slot.value ==> e.deadline == deadline)
    }

    constructor (deadline: nat)
      ensures this.deadline == deadline && slot == None
    {
      this.deadline, slot := deadline, None;
    }

    /** A slot that was nobody's before has one entry, which is its own. */
    lemma OwnEntry(before: seq<Entry>, after: seq<Entry>, own: Entry)
      requires Members(after) == Members(before) + {own} && forall e :: e in before ==> e.slot != own.slot
      ensures forall e :: e in after && e.slot == own.slot ==> e.deadline == own.deadline
    {
      forall e | e in after && e.slot == own.slot ensures e == own {
        assert e in Members(after);
        assert e in before ==> e in Members(before);
      }
    }

    method Adopt(reactor: Reactor, made: Slot, ghost x: SleepRuns.Sleep)
      requires reactor.registry.Valid() && reactor.Covers() && deadline <= NO_DEADLINE
      requires made in reactor.registry.heap.Slots() && !made.fired && made.waker.Some?
      requires forall e :: e in reactor.registry.heap.entries && e.slot == made ==> e.deadline == deadline
      requires x.deadline == deadline && x.armed && x.pending && !x.fired && x.waker
      modifies this`slot
      ensures slot == Some(made) && Mirrors(reactor, x)
    {
      slot := Some(made);
    }

    method FirstPoll(reactor: Reactor, now: nat, waker: WakerId, ghost x: SleepRuns.Sleep)
        returns (ready: bool, wake: bool)
      requires Mirrors(reactor, x) && x.pc == SleepRuns.Fresh && slot.None?
               && |reactor.registry.heap.entries| + 1 < NOT_QUEUED
      modifies this, reactor`nextDeadline, reactor.registry`sequence, reactor.registry.heap,
               reactor.registry.heap.Slots()
      ensures Mirrors(reactor, SleepRuns.FirstPolled(x, now))
      ensures ready == (now >= deadline)
      ensures !ready ==> slot.Some? && slot.value.waker == Some(waker) && slot.value in reactor.registry.heap.Slots()
      ensures wake == (reactor.nextDeadline < old(reactor.nextDeadline))
    {
      if now >= deadline { return true, false; }
      var made := new Slot(Some(waker));
      wake := reactor.Arm(deadline, made);
      ready := false;
      OwnEntry(old(reactor.registry.heap.entries), reactor.registry.heap.entries,
               Entry(deadline, old(reactor.registry.sequence), made));
      Adopt(reactor, made, SleepRuns.FirstPolled(x, now));
    }

    /** Where its poll stands is nothing the object keeps. */
    lemma OnlyFieldsMatter(reactor: Reactor, x: SleepRuns.Sleep, y: SleepRuns.Sleep)
      requires Mirrors(reactor, x)
      requires y.deadline == x.deadline && y.armed == x.armed && y.pending == x.pending && y.fired == x.fired
               && y.waker == x.waker
      ensures Mirrors(reactor, y)
    {
    }

    method SetWaker(reactor: Reactor, waker: WakerId, ghost x: SleepRuns.Sleep)
      requires Mirrors(reactor, x) && slot.Some?
      modifies slot.value`waker
      ensures Mirrors(reactor, x.(pc := SleepRuns.Stored, waker := true)) && slot.value.waker == Some(waker)
    {
      slot.value.waker := Some(waker);
    }

    /** What another thread's firing does to this sleep. */
    method Interrupted(reactor: Reactor, at: Option<nat>, ghost x: SleepRuns.Sleep)
      requires Mirrors(reactor, x) && slot.Some?
      modifies reactor.registry.heap, reactor.registry.heap.Slots()
      ensures Mirrors(reactor, SleepRuns.FiredAt(x, at))
      ensures slot.value.waker == if at.Some? && x.pending && x.deadline <= at.value then None
              else old(slot.value.waker)
      ensures reactor.registry.heap.Slots() <= old(reactor.registry.heap.Slots())
    {
      if at.None? { return; }
      ghost var own: Entry;
      if x.pending { own :| own in reactor.registry.heap.entries && own.slot == slot.value; }
      var next, due, woken := reactor.registry.FireDue(at.value);
      if x.pending && x.deadline > at.value { assert own in reactor.registry.heap.entries; }
    }

    /**
     A poll of an armed sleep, with what other threads fire between its first look at `fired` and
     its store of the waker, and between that store and its second look.
     */
    method RePoll(reactor: Reactor, waker: WakerId, first: Option<nat>, second: Option<nat>, ghost x: SleepRuns.Sleep)
      returns (ready: bool)
      requires Mirrors(reactor, x) && slot.Some? && (x.pending || x.fired)
      modifies reactor.registry.heap, reactor.registry.heap.Slots(), slot.value
      ensures Mirrors(reactor, SleepRuns.RePolled(x, first, second))
      ensures ready == (SleepRuns.RePolled(x, first, second).pc == SleepRuns.Done) == slot.value.fired
      ensures !ready ==> slot.value.waker == Some(waker)
    {
      ghost var x0 := x.(scheduled := false, pc := SleepRuns.Loaded);
      OnlyFieldsMatter(reactor, x, x0);
      if slot.value.fired {
        OnlyFieldsMatter(reactor, x, SleepRuns.RePolled(x, first, second));
        return true;
      }
      Interrupted(reactor, first, x0);
      ready := StoreAndLook(reactor, waker, second, SleepRuns.FiredAt(x0, first));
    }

    /** The second half of a re-poll: the store, then the look that no earlier firing can escape. */
    method StoreAndLook(reactor: Reactor, waker: WakerId, second: Option<nat>, ghost x: SleepRuns.Sleep)
        returns (ready: bool)
      requires Mirrors(reactor, x) && slot.Some?
      modifies reactor.registry.heap, reactor.registry.heap.Slots(), slot.value
      ensures Mirrors(reactor, SleepRuns.StoredAndLooked(x, second))
      ensures ready == (SleepRuns.StoredAndLooked(x, second).pc == SleepRuns.Done) == slot.value.fired
      ensures !ready ==> slot.value.waker == Some(waker)
    {
      SetWaker(reactor, waker, x);
      ghost var stored := x.(pc := SleepRuns.Stored, waker := true);
      Interrupted(reactor, second, stored);
      ready := slot.value.fired;
      OnlyFieldsMatter(reactor, SleepRuns.FiredAt(stored, second), SleepRuns.StoredAndLooked(x, second));
    }

    /** Takes its own entry out, if it is still there, and lets go of the waker. */
    method Drop(reactor: Reactor, ghost x: SleepRuns.Sleep) returns (removed: Option<Entry>)
      requires Mirrors(reactor, x)
      modifies reactor.registry.heap, reactor.registry.heap.Slots(), if slot.Some? then {slot.value} else {}
      ensures Mirrors(reactor, SleepRuns.Dropped(x))
      ensures removed.Some? <==> x.pending
      ensures slot.Some? ==> slot.value !in reactor.registry.heap.Slots() && slot.value.waker == None
      ensures removed.Some? ==> removed.value.slot == slot.value
      ensures reactor.registry.Timers()
              == if removed.Some? then old(reactor.registry.Timers()) - {removed.value.order}
                 else old(reactor.registry.Timers())
    {
      if slot.None? { return None; }
      removed := reactor.registry.Cancel(slot.value);
      slot.value.waker := None;
    }
  }
}
