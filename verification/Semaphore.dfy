/**
 `Semaphore` and its `Acquire` futures (src/sync.rs). A poll and a drop are one step each; a
 release is two, the permit first and `wake_one` later, because that gap is where a waiter could
 be left asleep beside a free permit.
 */
module Semaphores {
  import opened Common
  import opened Behaviours
  import opened WaitQueues
  import Waiters

  /** `owed` counts calls of `wake_one` still to run; `created` is the initial permits and all added. */
  datatype State = State(permits: nat, held: nat, forgotten: nat, created: nat, owed: nat, waiting: Waiters.Waiting)

  datatype Label =
    | Create(f: nat)
    | Poll(f: nat, id: nat)
    | Drop(f: nat)
    | TryAcquire
    | Release
    | Forget
    | AddPermits(n: nat)
    | WakeOne
    | Wake(w: WakerId)

  ghost predicate Enabled(s: State, l: Label) {
    match l
    case Create(f) => f !in s.waiting.regs
    case Poll(f, id) => f in s.waiting.regs && id !in s.waiting.queue.live
    case Drop(f) => f in s.waiting.regs
    case TryAcquire => s.permits > 0
    case Release => s.held > 0
    case Forget => s.held > 0
    case AddPermits(_) => true
    case WakeOne => s.owed > 0
    case Wake(w) => w in s.waiting.wakes
  }

  /** Takes a permit and leaves the queue, whatever the registration was; or registers and parks. */
  function DoPoll(s: State, f: nat, id: nat): State
    requires f in s.waiting.regs
  {
    if s.permits > 0 then
      s.(permits := s.permits - 1, held := s.held + 1, waiting := Waiters.Leave(s.waiting, f))
    else
      s.(waiting := Waiters.Register(Waiters.StartPoll(s.waiting, f), f, id))
  }

  /** A cancelled waiter that had been granted hands its turn on if a permit is free. */
  function DoDrop(s: State, f: nat): State
    requires f in s.waiting.regs
  {
    var left := Waiters.Leave(s.waiting, f);
    s.(waiting := if Waiters.KindOf(s.waiting, f) == Some(One) && s.permits != 0 then Waiters.WakeOne(left) else left)
  }

  function Do(s: State, l: Label): State
    requires Enabled(s, l)
  {
    match l
    case Create(f) => s.(waiting := Waiters.Create(s.waiting, f))
    case Poll(f, id) => DoPoll(s, f, id)
    case Drop(f) => DoDrop(s, f)
    case TryAcquire => s.(permits := s.permits - 1, held := s.held + 1)
    case Release => s.(permits := s.permits + 1, held := s.held - 1, owed := s.owed + 1)
    case Forget => s.(held := s.held - 1, forgotten := s.forgotten + 1)
    case AddPermits(n) => s.(permits := s.permits + n, created := s.created + n, owed := s.owed + n)
    case WakeOne => s.(owed := s.owed - 1, waiting := Waiters.WakeOne(s.waiting))
    case Wake(w) => s.(waiting := Waiters.Deliver(s.waiting, w))
  }

  ghost predicate Init(s: State) {
    s == State(s.created, 0, 0, s.created, 0, Waiters.NOBODY)
  }

  ghost predicate Next(s: State, t: State) {
    exists l :: Enabled(s, l) && t == Do(s, l)
  }

  function Granted(s: State): nat {
    |Ones(s.waiting.queue.live)|
  }

  ghost predicate Inv(s: State) {
    && s.permits + s.held + s.forgotten == s.created
    && Waiters.Inv(s.waiting)
    && s.waiting.polling == {}
    && (s.waiting.queue.fifo != [] ==> s.permits <= Granted(s) + s.owed)
  }

  /** Leaving gives back one grant at most, and only if there was one. */
  lemma LeaveCounts(w: Waiters.Waiting, f: nat)
    requires Waiters.Inv(w) && f in w.regs
    ensures |Ones(Waiters.Leave(w, f).queue.live)|
            == |Ones(w.queue.live)| - (if Waiters.KindOf(w, f) == Some(One) then 1 else 0)
    ensures Waiters.Leave(w, f).queue.fifo != [] ==> w.queue.fifo != []
  {
    if w.regs[f].Some? {
      assert Waiters.Owns(w.regs, f, w.regs[f].value);
      OnesAfterRemove(w.queue.live, w.regs[f].value);
      DropElement(Ones(w.queue.live), w.regs[f].value);
    }
  }

  /** Waking one grants the head, so a queue that is still not empty has one grant more. */
  lemma WakeOneCounts(w: Waiters.Waiting)
    requires Waiters.Inv(w)
    ensures |Ones(Waiters.WakeOne(w).queue.live)| == |Ones(w.queue.live)| + (if w.queue.fifo == [] then 0 else 1)
    ensures w.queue.fifo == [] ==> Waiters.WakeOne(w).queue.fifo == []
  {
    if w.queue.fifo != [] {
      OnesAfterSet(w.queue.live, w.queue.fifo[0], Registration(One, None));
      DropElement(Ones(w.queue.live), w.queue.fifo[0]);
    }
  }

  lemma PollKeeps(s: State, f: nat, id: nat)
    requires Inv(s) && Enabled(s, Poll(f, id))
    ensures Inv(Do(s, Poll(f, id)))
  {
    if s.permits > 0 {
      Waiters.LeaveKeeps(s.waiting, f);
      LeaveCounts(s.waiting, f);
    } else {
      Waiters.QuietStepsKeep(s.waiting, f);
      Waiters.RegisterKeeps(Waiters.StartPoll(s.waiting, f), f, id);
    }
  }

  lemma DropKeeps(s: State, f: nat)
    requires Inv(s) && Enabled(s, Drop(f))
    ensures Inv(Do(s, Drop(f)))
  {
    var left := Waiters.Leave(s.waiting, f);
    Waiters.LeaveKeeps(s.waiting, f);
    LeaveCounts(s.waiting, f);
    Waiters.WakeOneKeeps(left);
    WakeOneCounts(left);
  }

  lemma StepKeeps(s: State, l: Label)
    requires Inv(s) && Enabled(s, l)
    ensures Inv(Do(s, l))
  {
    match l
    case Create(f) => Waiters.QuietStepsKeep(s.waiting, f);
    case Poll(f, id) => PollKeeps(s, f, id);
    case Drop(f) => DropKeeps(s, f);
    case WakeOne => Waiters.WakeOneKeeps(s.waiting); WakeOneCounts(s.waiting);
    case Wake(w) => Waiters.QuietStepsKeep(s.waiting, w);
    case _ =>
  }

  lemma RunsKeepInv(run: seq<State>)
    requires IsRun(Init, Next, run)
    ensures forall i :: 0 <= i < |run| ==> Inv(run[i])
  {
    forall s, t | Inv(s) && Next(s, t) ensures Inv(t) {
      var l :| Enabled(s, l) && t == Do(s, l);
      StepKeeps(s, l);
    }
    Invariance(Init, Next, Inv, run);
  }

  /**
   No waiter sleeps beside a free permit: while anyone is queued, every free permit is matched by a
   granted waiter that has not acknowledged yet or by a `wake_one` still to run. The permits that
   are free, held and forgotten are always the ones created.
   */
  lemma FreePermitsAreSpokenFor(run: seq<State>, i: nat)
    requires IsRun(Init, Next, run) && i < |run|
    ensures forall f :: Waiters.Waits(run[i].waiting, f) ==>
              run[i].permits <= |Ones(run[i].waiting.queue.live)| + run[i].owed
    ensures run[i].permits + run[i].held + run[i].forgotten == run[i].created
  {
    RunsKeepInv(run);
    assert Inv(run[i]);
    forall f | Waiters.Waits(run[i].waiting, f) ensures run[i].waiting.queue.fifo != [] {
      assert Waiters.Owns(run[i].waiting.regs, f, run[i].waiting.regs[f].value);
    }
  }

  /** A granted waiter that has not acknowledged was woken, or its wake is on the way. */
  lemma GrantedAreWoken(run: seq<State>, i: nat, f: nat)
    requires IsRun(Init, Next, run) && i < |run|
    requires f in run[i].waiting.regs && Waiters.KindOf(run[i].waiting, f) == Some(One)
    ensures f in run[i].waiting.wakes || f in run[i].waiting.scheduled
  {
    RunsKeepInv(run);
    assert Inv(run[i]);
    assert Waiters.Owns(run[i].waiting.regs, f, run[i].waiting.regs[f].value);
  }

  // ---------- The objects ----------

  /** `n` calls of `wake_one` in a row. */
  function WakeTimes(w: Waiters.Waiting, n: nat): Waiters.Waiting {
    if n == 0 then w else Waiters.WakeOne(WakeTimes(w, n - 1))
  }

  /** What is left of a queue once its first `n` are gone. */
  function After(fifo: seq<nat>, n: nat): seq<nat> {
    if n <= |fifo| then fifo[n..] else []
  }

  lemma AfterOneMore(fifo: seq<nat>, n: nat)
    ensures After(fifo, n + 1) == if After(fifo, n) == [] then [] else After(fifo, n)[1..]
    ensures Min(n + 1, |fifo|) == Min(n, |fifo|) + if After(fifo, n) == [] then 0 else 1
  {
  }

  lemma {:induction false} WakeTimesKeeps(w: Waiters.Waiting, n: nat)
    requires Waiters.Inv(w)
    ensures Waiters.Inv(WakeTimes(w, n))
  {
    if n > 0 {
      WakeTimesKeeps(w, n - 1);
      Waiters.WakeOneKeeps(WakeTimes(w, n - 1));
    }
  }

  /** `v` is `w` with its `n` oldest waiters granted, or all of them. */
  ghost predicate OldestGranted(w: Waiters.Waiting, v: Waiters.Waiting, n: nat) {
    && v.queue.fifo == After(w.queue.fifo, n)
    && |Ones(v.queue.live)| == |Ones(w.queue.live)| + Min(n, |w.queue.fifo|)
  }

  lemma NextGranted(w: Waiters.Waiting, v: Waiters.Waiting, n: nat)
    requires Waiters.Inv(v) && OldestGranted(w, v, n)
    ensures OldestGranted(w, Waiters.WakeOne(v), n + 1)
  {
    WakeOneCounts(v);
    AfterOneMore(w.queue.fifo, n);
  }

  lemma NoneGranted(w: Waiters.Waiting)
    ensures OldestGranted(w, w, 0)
  {
    assert w.queue.fifo[0..] == w.queue.fifo;
  }

  lemma OneMoreWake(w: Waiters.Waiting, n: nat)
    requires n > 0
    ensures WakeTimes(w, n) == Waiters.WakeOne(WakeTimes(w, n - 1))
  {
  }

  /** One waker per permit: `n` permits grant the `n` that have waited longest, and only those stop waiting. */
  lemma {:induction false} WakeTimesGrantsTheOldest(w: Waiters.Waiting, n: nat)
    requires Waiters.Inv(w)
    ensures OldestGranted(w, WakeTimes(w, n), n)
  {
    if n == 0 {
      NoneGranted(w);
    } else {
      WakeTimesGrantsTheOldest(w, n - 1);
      WakeTimesKeeps(w, n - 1);
      NextGranted(w, WakeTimes(w, n - 1), n - 1);
      OneMoreWake(w, n);
    }
  }

  /** Adding permits and then calling `wake_one` once for each. */
  ghost function AddSteps(s: State, n: nat, woken: nat): State
    requires woken <= n
    ensures AddSteps(s, n, woken).owed == s.owed + n - woken
  {
    if woken == 0 then Do(s, AddPermits(n)) else Do(AddSteps(s, n, woken - 1), WakeOne)
  }

  /** Run back to back, those steps are one whole call of `add_permits`. */
  lemma {:induction false} AddPermitsIsItsSteps(s: State, n: nat, woken: nat)
    requires woken <= n
    ensures AddSteps(s, n, woken)
            == s.(permits := s.permits + n, created := s.created + n, owed := s.owed + n - woken,
                waiting := WakeTimes(s.waiting, woken))
  {
    if woken > 0 { AddPermitsIsItsSteps(s, n, woken - 1); }
  }

  /** Between two of its operations the object is the machine's permit count and queue. */
  lemma Tallied(start: multiset<WakerId>, wakes: seq<WakerId>, before: multiset<WakerId>, more: seq<WakerId>,
      after: multiset<WakerId>)
    requires before == start + multiset(wakes) && after == before + multiset(more)
    ensures after == start + multiset(wakes + more)
  {
    assert multiset(wakes + more) == multiset(wakes) + multiset(more);
  }

  class Semaphore {
    var permits: nat
    const waiters: WaitQueue

    ghost predicate Mirrors(s: State)
      reads this, waiters
    {
      waiters.Valid() && permits == s.permits && waiters.View() == s.waiting.queue
    }

    constructor (permits: nat)
      ensures fresh(waiters) && Mirrors(State(permits, 0, 0, permits, 0, Waiters.NOBODY))
    {
      this.permits := permits;
      waiters := new WaitQueue();
    }

    /**
     The retry loop. `found` is what the failing exchanges find in the count, one after the other;
     with none the call runs alone. It gives up only on a count of zero it has seen.
     */
    method TryAcquire(found: seq<nat>) returns (taken: bool)
      modifies this`permits
      ensures taken <==> 0 !in [old(permits)] + found
      ensures permits == if taken then ([old(permits)] + found)[|found|] - 1 else 0
    {
      ghost var seen := [permits] + found;
      var current, round := permits, 0;
      while true
        invariant 0 <= round <= |found| && current == permits == seen[round] && 0 !in seen[..round]
        decreases |found| - round
      {
        assert seen[..round + 1] == seen[..round] + [current];
        if current == 0 {
          assert seen[round] in seen;
          return false;
        }
        if round == |found| {
          permits := current - 1;
          assert seen[..round + 1] == seen;
          return true;
        }
        permits := found[round];
        current := permits;
        round := round + 1;
      }
    }

    /** `wake_one` of the waiter list; the caller wakes what is returned. */
    method WakeOne(ghost w: Waiters.Waiting) returns (wakes: seq<WakerId>)
      requires waiters.Valid() && waiters.View() == w.queue
      modifies waiters
      ensures waiters.Valid() && waiters.View() == Waiters.WakeOne(w).queue
      ensures Waiters.WakeOne(w).wakes == w.wakes + multiset(wakes)
      ensures wakes == if w.queue.fifo == [] then [] else HeadWaker(w.queue)
    {
      var granted, waker := waiters.GrantOne();
      wakes := if waker.Some? then [waker.value] else [];
    }

    method AddPermits(n: nat, ghost s: State) returns (wakes: seq<WakerId>)
      requires Mirrors(s)
      modifies this`permits, waiters
      ensures Mirrors(s.(permits := s.permits + n, waiting := WakeTimes(s.waiting, n)))
      ensures WakeTimes(s.waiting, n).wakes == s.waiting.wakes + multiset(wakes)
    {
      wakes := [];
      if n == 0 { return; }
      permits := permits + n;
      for i := 0 to n
        invariant permits == s.permits + n
        invariant waiters.Valid() && waiters.View() == WakeTimes(s.waiting, i).queue
        invariant WakeTimes(s.waiting, i).wakes == s.waiting.wakes + multiset(wakes)
      {
        ghost var before := WakeTimes(s.waiting, i);
        OneMoreWake(s.waiting, i + 1);
        var more := WakeOne(before);
        Tallied(s.waiting.wakes, wakes, before.wakes, more, WakeTimes(s.waiting, i + 1).wakes);
        wakes := wakes + more;
      }
    }
  }

  /** A future of task `f`; `s` is the machine's state when the call starts. */
  class Acquire {
    const semaphore: Semaphore
    var registration: Option<nat>

    ghost predicate Mirrors(s: State, f: nat)
      reads this, semaphore, semaphore.waiters
    {
      && semaphore.Mirrors(s) && f in s.waiting.regs && s.waiting.regs[f] == registration
      && (registration.Some? ==> registration.value in s.waiting.queue.live)
    }

    constructor (semaphore: Semaphore)
      ensures this.semaphore == semaphore && registration == None
    {
      this.semaphore := semaphore;
      registration := None;
    }

    method Poll(ghost s: State, f: nat) returns (acquired: bool)
      requires Mirrors(s, f)
      modifies this`registration, semaphore`permits, semaphore.waiters
      ensures acquired == (s.permits > 0)
      ensures acquired ==> registration == None && semaphore.Mirrors(DoPoll(s, f, 0))
      ensures !acquired ==> registration.Some?
      ensures !acquired ==> registration == s.waiting.regs[f] || registration.value !in s.waiting.queue.live
      ensures !acquired ==> Mirrors(DoPoll(s, f, registration.value), f)
      ensures semaphore.permits == old(semaphore.permits) - if acquired then 1 else 0
      ensures !acquired ==> semaphore.permits == 0 && registration.value in semaphore.waiters.View().live
                            && semaphore.waiters.View().live[registration.value] == Registration(Queued, Some(f))
    {
      acquired := semaphore.TryAcquire([]);
      if acquired {
        var removed := semaphore.waiters.Remove(registration);
        registration := None;
        return;
      }
      var id, replaced := semaphore.waiters.Register(registration, Some(f));
      registration := Some(id);
      acquired := semaphore.TryAcquire([]);
    }

    method Drop(ghost s: State, ghost f: nat) returns (wakes: seq<WakerId>)
      requires Mirrors(s, f)
      modifies this`registration, semaphore.waiters
      ensures semaphore.Mirrors(DoDrop(s, f)) && DoDrop(s, f).waiting.wakes == s.waiting.wakes + multiset(wakes)
      ensures registration == None && semaphore.permits == old(semaphore.permits)
      ensures var queue, own := s.waiting.queue, old(registration);
              if own.Some? && queue.live[own.value].kind == One && s.permits > 0 && queue.fifo != [] then
                && semaphore.waiters.fifo == queue.fifo[1..] && queue.fifo[0] in queue.live
                && wakes == match queue.live[queue.fifo[0]].waker case Some(waker) => [waker] case None => []
              else wakes == [] && forall id :: id in queue.fifo && own != Some(id) ==> id in semaphore.waiters.fifo
    {
      wakes := [];
      var granted := Leave(s, f);
      if granted && semaphore.permits != 0 {
        wakes := semaphore.WakeOne(Waiters.Leave(s.waiting, f));
      }
    }

    /** Gives up the registration, and says whether it had been granted. */
    method Leave(ghost s: State, ghost f: nat) returns (granted: bool)
      requires Mirrors(s, f)
      modifies this`registration, semaphore.waiters
      ensures semaphore.Mirrors(s.(waiting := Waiters.Leave(s.waiting, f)))
      ensures granted == (Waiters.KindOf(s.waiting, f) == Some(One))
      ensures registration == None
      ensures granted <==> old(registration).Some? && s.waiting.queue.live[old(registration).value].kind == One
      ensures granted ==> semaphore.waiters.fifo == s.waiting.queue.fifo
                          && semaphore.waiters.View().live == s.waiting.queue.live - {old(registration).value}
      ensures forall id :: id in s.waiting.queue.fifo && old(registration) != Some(id) ==> id in semaphore.waiters.fifo
    {
      var removed := semaphore.waiters.Remove(registration);
      registration := None;
      granted := removed.Some? && removed.value.kind == One;
    }
  }
}
