/**
 `Barrier` (src/sync.rs): arrivals under its own lock, over the `Notify` protocol. A waiter
 creates a `Notified`, enables it, reads the release generation, and only then awaits.
 The code's wrapping of the generation counter is not modelled.
 */
module Barriers {
  import opened Behaviours
  import opened WaitQueues
  import N = Notifies

  /** A waiter's position; `g` is the release generation it read when it arrived. */
  datatype Pc = Start(g: nat) | Enabling(g: nat) | Awaiting(g: nat) | Leaving(g: nat)

  /**
   `broadcasts` counts completing arrivals whose `notify_waiters` has not run yet. `arrivals` and
   `elected` count what happened so far, and `tickets` says as which arrival each waiter came.
   */
  datatype State = State(n: nat, arrived: nat, generation: nat, broadcasts: nat, notify: N.State,
                         waiters: map<nat, Pc>, arrivals: nat, elected: nat, tickets: map<nat, nat>)

  datatype Label =
    | Arrive(t: nat)
    | CreateNotified(t: nat)
    | Step(t: nat, inner: N.Label)
    | Check(t: nat)
    | Again(t: nat)
    | Leave(t: nat)
    | Cancel(t: nat)
    | Broadcast
    | Wake(w: WakerId)

  ghost predicate Enabled(s: State, l: Label) {
    match l
    case Arrive(t) => t !in s.waiters && t !in s.notify.tasks
    case CreateNotified(t) => t in s.waiters && s.waiters[t].Start? && t !in s.notify.tasks
    case Step(t, inner) =>
      && t in s.waiters && t in s.notify.tasks && N.Enabled(s.notify, inner)
      && (if s.waiters[t].Enabling? then
            N.CallStep(t, inner, false) && (inner.Begin? ==> s.notify.tasks[t].pc == N.Fresh)
          else s.waiters[t].Awaiting? && N.CallStep(t, inner, true))
    case Check(t) => t in s.waiters && s.waiters[t].Enabling? && t in s.notify.tasks && s.notify.tasks[t].pc == N.Idle
    case Again(t) => t in s.waiters && s.waiters[t].Awaiting? && N.Enabled(s.notify, N.Drop(t))
        && s.notify.tasks[t].fut.done
    case Leave(t) => t in s.waiters && s.waiters[t].Leaving? && N.Enabled(s.notify, N.Drop(t))
    case Cancel(t) => t in s.waiters && s.waiters[t].Awaiting? && N.Enabled(s.notify, N.Drop(t))
    case Broadcast => s.broadcasts > 0
    case Wake(w) => N.Enabled(s.notify, N.Wake(w))
  }

  function DoArrive(s: State, t: nat): State {
    var arrived := s.arrived + 1;
    if arrived >= s.n then
      s.(arrived := 0, generation := s.generation + 1, broadcasts := s.broadcasts + 1,
         arrivals := s.arrivals + 1, elected := s.elected + 1)
    else
      s.(arrived := arrived, waiters := s.waiters[t := Start(s.generation)], arrivals := s.arrivals + 1,
         tickets := s.tickets[t := s.arrivals])
  }

  /** The re-read after `enable`: a released waiter leaves, the others await. */
  function DoCheck(s: State, t: nat): State
    requires t in s.waiters
  {
    var g := s.waiters[t].g;
    s.(waiters := s.waiters[t := if s.generation != g then Leaving(g) else Awaiting(g)])
  }

  function Do(s: State, l: Label): State
    requires Enabled(s, l)
  {
    match l
    case Arrive(t) => DoArrive(s, t)
    case CreateNotified(t) =>
      s.(notify := N.Do(s.notify, N.Create(t)), waiters := s.waiters[t := Enabling(s.waiters[t].g)])
    case Step(_, inner) => s.(notify := N.Do(s.notify, inner))
    case Check(t) => DoCheck(s, t)
    case Again(t) => s.(notify := N.Do(s.notify, N.Drop(t)), waiters := s.waiters[t := Start(s.waiters[t].g)])
    case Leave(t) => s.(notify := N.Do(s.notify, N.Drop(t)), waiters := s.waiters - {t})
    case Cancel(t) => s.(notify := N.Do(s.notify, N.Drop(t)), waiters := s.waiters - {t})
    case Broadcast => s.(broadcasts := s.broadcasts - 1, notify := N.Do(s.notify, N.NotifyWaiters))
    case Wake(w) => s.(notify := N.Do(s.notify, N.Wake(w)))
  }

  ghost predicate Init(s: State) {
    N.Init(s.notify) && s == State(s.n, 0, 0, 0, s.notify, map[], 0, 0, map[])
  }

  ghost predicate Next(s: State, t: State) {
    exists l :: Enabled(s, l) && t == Do(s, l)
  }

  /** How many arrivals make a rendezvous. */
  function Block(s: State): nat {
    if s.n == 0 then 1 else s.n
  }

  /** The waiter came with the block of arrivals that its generation numbers. */
  ghost predicate Belongs(s: State, t: nat)
    requires t in s.waiters
  {
    t in s.tickets && s.waiters[t].g * Block(s) <= s.tickets[t] < (s.waiters[t].g + 1) * Block(s)
  }

  /** A waiter whose group has gone and that still waits has a broadcast coming. */
  ghost predicate WaiterOk(s: State, t: nat)
    requires t in s.waiters
  {
    var pc := s.waiters[t];
    && pc.g <= s.generation
    && (pc.Start? <==> t !in s.notify.tasks)
    && (pc.Leaving? ==> pc.g < s.generation)
    && (pc.Awaiting? || pc.Leaving? ==> N.Armed(s.notify, t))
    && (pc.Awaiting? && pc.g != s.generation && N.Waits(s.notify, t) ==> s.broadcasts > 0)
  }

  ghost predicate Inv(s: State) {
    && N.Inv(s.notify)
    && s.notify.calls == 0
    && s.notify.tasks.Keys <= s.waiters.Keys
    && s.elected == s.generation
    && (if s.n == 0 then s.arrived == 0 else s.arrived < s.n)
    && s.arrivals == s.elected * Block(s) + s.arrived
    && (forall t :: t in s.waiters ==> WaiterOk(s, t))
    && (forall t :: t in s.waiters ==> Belongs(s, t))
  }

  lemma BelongsFrame(s: State, u: State)
    requires forall t :: t in s.waiters ==> Belongs(s, t)
    requires u.n == s.n && u.tickets == s.tickets
    requires forall t :: t in u.waiters ==> t in s.waiters && u.waiters[t].g == s.waiters[t].g
    ensures forall t :: t in u.waiters ==> Belongs(u, t)
  {
    forall t | t in u.waiters ensures Belongs(u, t) {
      assert Belongs(s, t) && Block(u) == Block(s);
    }
  }

  /** A `Notify` step of one waiter, a broadcast or a wake leaves every other waiter's promise alone. */
  lemma NotifyStepKeeps(s: State, inner: N.Label, u: State, own: nat)
    requires Inv(s) && N.Enabled(s.notify, inner)
    requires inner.NotifyWaiters? || inner.Wake?
             || (own in s.waiters && N.CallStep(own, inner, s.waiters[own].Awaiting?))
    requires own in s.waiters && s.waiters[own].Leaving? ==> !N.CallStep(own, inner, false)
    requires own in s.waiters && s.waiters[own].Start? ==> !N.CallStep(own, inner, false)
    requires u == s.(notify := N.Do(s.notify, inner), broadcasts := u.broadcasts)
    requires u.broadcasts == s.broadcasts || inner.NotifyWaiters?
    ensures Inv(u)
  {
    N.StepKeeps(s.notify, inner);
    N.TasksStay(s.notify, inner);
    N.CallsAreCounted(s.notify, inner);
    BelongsFrame(s, u);
    forall t | t in s.waiters ensures WaiterOk(u, t) {
      WaiterFrame(s, inner, u, t);
    }
  }

  lemma WaiterFrame(s: State, inner: N.Label, u: State, t: nat)
    requires N.Inv(s.notify) && N.Enabled(s.notify, inner) && !inner.Create? && !inner.Drop?
    requires t in s.waiters && WaiterOk(s, t)
    requires u == s.(notify := N.Do(s.notify, inner), broadcasts := u.broadcasts)
    requires u.broadcasts == s.broadcasts || inner.NotifyWaiters?
    ensures WaiterOk(u, t)
  {
    N.TasksStay(s.notify, inner);
    if N.Armed(s.notify, t) { N.ArmedStopsWaiting(s.notify, inner, t); }
  }

  /** A waiter that leaves, cancels or starts over drops its future. */
  lemma DropKeeps(s: State, l: Label)
    requires Inv(s) && Enabled(s, l) && (l.Again? || l.Leave? || l.Cancel?)
    ensures Inv(Do(s, l))
  {
    var u := Do(s, l);
    N.StepKeeps(s.notify, N.Drop(l.t));
    N.DropLeavesTasks(s.notify, l.t);
    N.CallsAreCounted(s.notify, N.Drop(l.t));
    BelongsFrame(s, u);
    forall w | w in u.waiters ensures WaiterOk(u, w) {
      if w != l.t { OtherDropFrame(s, l.t, u, w); }
    }
  }

  lemma OtherDropFrame(s: State, t: nat, u: State, w: nat)
    requires N.Inv(s.notify) && N.Enabled(s.notify, N.Drop(t)) && w != t
    requires w in s.waiters && WaiterOk(s, w) && w in u.waiters && u.waiters[w] == s.waiters[w]
    requires u == s.(notify := N.Do(s.notify, N.Drop(t)), waiters := u.waiters)
    ensures WaiterOk(u, w)
  {
    if N.Armed(s.notify, w) { N.ArmedStopsWaiting(s.notify, N.Drop(t), w); }
  }

  lemma CreateKeeps(s: State, t: nat)
    requires Inv(s) && Enabled(s, CreateNotified(t))
    ensures Inv(Do(s, CreateNotified(t)))
  {
    N.StepKeeps(s.notify, N.Create(t));
    BelongsFrame(s, Do(s, CreateNotified(t)));
    forall w | w in s.waiters ensures WaiterOk(Do(s, CreateNotified(t)), w) {
      assert WaiterOk(s, w);
      if w != t && N.Armed(s.notify, w) { N.ArmedStopsWaiting(s.notify, N.Create(t), w); }
    }
  }

  lemma ArriveKeeps(s: State, t: nat)
    requires Inv(s) && Enabled(s, Arrive(t))
    ensures Inv(Do(s, Arrive(t)))
  {
    var u := Do(s, Arrive(t));
    NextBlock(s.elected, Block(s));
    forall w | w in u.waiters ensures WaiterOk(u, w) {
      if w in s.waiters { assert WaiterOk(s, w); }
    }
    ArriveTicket(s, t);
  }

  lemma NextBlock(g: nat, block: nat)
    ensures (g + 1) * block == g * block + block
  {
  }

  lemma ArriveTicket(s: State, t: nat)
    requires Enabled(s, Arrive(t)) && s.elected == s.generation && s.arrived < Block(s)
    requires s.arrivals == s.elected * Block(s) + s.arrived
    requires forall w :: w in s.waiters ==> Belongs(s, w)
    ensures var u := DoArrive(s, t); forall w :: w in u.waiters ==> Belongs(u, w)
  {
    var u := DoArrive(s, t);
    NextBlock(s.generation, Block(s));
    forall w | w in u.waiters ensures Belongs(u, w) {
      if w in s.waiters {
        assert Belongs(s, w);
        assert w in u.tickets && u.waiters[w] == s.waiters[w] && u.tickets[w] == s.tickets[w] && Block(u) == Block(s);
      } else {
        assert w == t && u.waiters[w].g == s.generation && u.tickets[w] == s.arrivals;
      }
    }
  }

  lemma CheckKeeps(s: State, t: nat)
    requires Inv(s) && Enabled(s, Check(t))
    ensures Inv(Do(s, Check(t)))
  {
    assert N.TaskOk(s.notify.tasks[t], s.notify.core.generation);
    assert WaiterOk(s, t);
    BelongsFrame(s, Do(s, Check(t)));
    forall w | w in s.waiters ensures WaiterOk(Do(s, Check(t)), w) {
      assert WaiterOk(s, w);
    }
  }

  lemma StepKeeps(s: State, l: Label)
    requires Inv(s) && Enabled(s, l)
    ensures Inv(Do(s, l))
  {
    match l
    case Arrive(t) => ArriveKeeps(s, t);
    case CreateNotified(t) => CreateKeeps(s, t);
    case Step(t, inner) => NotifyStepKeeps(s, inner, Do(s, l), t);
    case Check(t) => CheckKeeps(s, t);
    case Again(_) => DropKeeps(s, l);
    case Leave(_) => DropKeeps(s, l);
    case Cancel(_) => DropKeeps(s, l);
    case Broadcast => NotifyStepKeeps(s, N.NotifyWaiters, Do(s, l), 0);
    case Wake(w) => NotifyStepKeeps(s, N.Wake(w), Do(s, l), 0);
  }

  lemma RunsKeepInv(run: seq<State>)
    requires IsRun(Init, Next, run)
    ensures forall i :: 0 <= i < |run| ==> Inv(run[i])
  {
    forall s | Init(s) ensures Inv(s) {
      assert Ones(s.notify.core.queue.live) == {} && N.Reserved(s.notify.tasks) == {};
    }
    forall s, t | Inv(s) && Next(s, t) ensures Inv(t) {
      var l :| Enabled(s, l) && t == Do(s, l);
      StepKeeps(s, l);
    }
    Invariance(Init, Next, Inv, run);
  }

  /** Every block of `n` arrivals elects exactly one, and fewer than `n` are ever left over. */
  lemma OneElectedPerBlock(run: seq<State>, i: nat)
    requires IsRun(Init, Next, run) && i < |run| && run[i].n >= 1
    ensures run[i].arrivals == run[i].elected * run[i].n + run[i].arrived && run[i].arrived < run[i].n
  {
    RunsKeepInv(run);
    assert Inv(run[i]);
  }

  /**
   The rendezvous: a waiter returns false only once all `n` arrivals of the block it came with,
   its own among them, have happened.
   */
  lemma LeavesOnlyWhenReleased(run: seq<State>, i: nat, t: nat)
    requires IsRun(Init, Next, run) && i < |run| && run[i].n >= 1 && t in run[i].waiters && run[i].waiters[t].Leaving?
    ensures t in run[i].tickets
    ensures var g, n := run[i].waiters[t].g, run[i].n;
            g * n <= run[i].tickets[t] < (g + 1) * n <= run[i].arrivals
  {
    RunsKeepInv(run);
    var s := run[i];
    assert Inv(s) && WaiterOk(s, t) && Belongs(s, t);
    BlocksAddUp(s.waiters[t].g + 1, s.elected, s.n);
  }

  lemma BlocksAddUp(a: nat, b: nat, n: nat)
    requires a <= b
    ensures a * n <= b * n
  {
  }

  /** A waiter parked after its release has a wake on the way or a broadcast still to come. */
  lemma ReleasedWaitersWake(run: seq<State>, i: nat, t: nat)
    requires IsRun(Init, Next, run) && i < |run| && t in run[i].waiters
    requires run[i].waiters[t].Awaiting? && run[i].waiters[t].g != run[i].generation
    requires t in run[i].notify.tasks && run[i].notify.tasks[t].parked
    ensures t in run[i].notify.wakes || run[i].broadcasts > 0
  {
    RunsKeepInv(run);
    var s := run[i];
    assert Inv(s) && WaiterOk(s, t) && N.TaskOk(s.notify.tasks[t], s.notify.core.generation);
    assert N.Owns(s.notify.tasks, t, s.notify.tasks[t].fut.registration.value);
  }

  /** The object: arrivals under their lock, beside the notifier. */
  class Barrier {
    const n: nat
    var arrived: nat
    var generation: nat
    const notify: N.Notify

    constructor (n: nat)
      ensures fresh(notify) && fresh(notify.waiters) && notify.Valid()
      ensures this.n == n && arrived == 0 && generation == 0 && notify.View() == N.Core(false, 0, EMPTY_VIEW)
    {
      this.n, arrived, generation := n, 0, 0;
      notify := new N.Notify();
    }

    /** The head of `wait`: the arrival that completes a group releases it and is the one told so. */
    method Arrive(ghost s: State, ghost t: nat) returns (elected: bool, mine: nat, wakes: seq<WakerId>)
      requires notify.Valid() && notify.View() == s.notify.core
      requires n == s.n && arrived == s.arrived && generation == s.generation
      modifies this`arrived, this`generation, notify`generation, notify.waiters
      ensures var u := DoArrive(s, t);
              && arrived == u.arrived && generation == u.generation && notify.Valid()
              && (elected <==> u.elected > s.elected)
              && (!elected ==> t in u.waiters && u.waiters[t] == Start(mine))
              && notify.View() == (if u.broadcasts > s.broadcasts then N.BroadcastSection(s.notify.core)
                                   else s.notify.core)
      ensures wakes == if elected then WakersOf(s.notify.core.queue.fifo, s.notify.core.queue.live) else []
      ensures elected <==> old(arrived) + 1 >= n
      ensures elected ==> arrived == 0 && generation == old(generation) + 1
      ensures !elected ==> arrived == old(arrived) + 1 && generation == old(generation) == mine
      ensures !elected ==> notify.View() == old(notify.View())
      ensures elected ==> notify.generation == old(notify.generation) + 1 && notify.waiters.fifo == []
    {
      arrived := arrived + 1;
      wakes := [];
      if arrived >= n {
        arrived := 0;
        generation := generation + 1;
        wakes := notify.NotifyWaiters();
        return true, generation, wakes;
      }
      elected, mine := false, generation;
    }
  }
}
