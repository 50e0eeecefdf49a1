/**
 Coalesced wake reasons (src/readiness.rs): many producers, one consumer, over the `Notify`
 protocol. A reason mask is modelled as the set of its bits.
 */
module Readiness {
  import opened Common
  import opened Behaviours
  import opened WaitQueues
  import N = Notifies

  /** The consumer's position in `wait`; its one future at a time is future 0. */
  datatype Pc = Start | Enabling | Awaiting | Returning

  /** `owed` counts producers between a `fetch_or` that found zero and their `notify_one`. */
  datatype State = State(reasons: set<nat>, owed: nat, notify: N.State, pc: Pc, sent: set<nat>, received: set<nat>)

  datatype Label =
    | CreateNotified
    | Step(inner: N.Label)
    | Swap
    | Again
    | Return
    | Cancel
    | Raise(bits: set<nat>)
    | NotifyOne
    | Wake(w: WakerId)

  ghost predicate Enabled(s: State, l: Label) {
    match l
    case CreateNotified => s.pc == Start && 0 !in s.notify.tasks
    case Step(inner) =>
      && 0 in s.notify.tasks && N.Enabled(s.notify, inner)
      && (if s.pc == Enabling then N.CallStep(0, inner, false) && (inner.Begin? ==> s.notify.tasks[0].pc == N.Fresh)
          else s.pc == Awaiting && N.CallStep(0, inner, true))
    case Swap => s.pc == Enabling && 0 in s.notify.tasks && s.notify.tasks[0].pc == N.Idle
    case Again => s.pc == Awaiting && N.Enabled(s.notify, N.Drop(0)) && s.notify.tasks[0].fut.done
                  && !s.notify.tasks[0].fut.reserved
    case Return => s.pc == Returning && N.Enabled(s.notify, N.Drop(0))
    case Cancel => s.pc == Awaiting && N.Enabled(s.notify, N.Drop(0))
    case Raise(_) => true
    case NotifyOne => s.owed > 0
    case Wake(w) => N.Enabled(s.notify, N.Wake(w))
  }

  /** The recheck after `enable`: pending reasons are taken, none means await. */
  function DoSwap(s: State): State {
    s.(reasons := {}, received := s.received + s.reasons, pc := if s.reasons != {} then Returning else Awaiting)
  }

  /** `ReadyHandle::wake`: only the step from none to some notifies. */
  function DoRaise(s: State, bits: set<nat>): State {
    s.(reasons := s.reasons + bits, sent := s.sent + bits,
       owed := s.owed + if bits != {} && s.reasons == {} then 1 else 0)
  }

  function Do(s: State, l: Label): State
    requires Enabled(s, l)
  {
    match l
    case CreateNotified => s.(notify := N.Do(s.notify, N.Create(0)), pc := Enabling)
    case Step(inner) => s.(notify := N.Do(s.notify, inner))
    case Swap => DoSwap(s)
    case Again => s.(notify := N.Do(s.notify, N.Drop(0)), pc := Start)
    case Return => s.(notify := N.Do(s.notify, N.Drop(0)), pc := Start)
    case Cancel => s.(notify := N.Do(s.notify, N.Drop(0)), pc := Start)
    case Raise(bits) => DoRaise(s, bits)
    case NotifyOne => s.(owed := s.owed - 1, notify := N.Do(s.notify, N.NotifyOne))
    case Wake(w) => s.(notify := N.Do(s.notify, N.Wake(w)))
  }

  ghost predicate Init(s: State) {
    N.Init(s.notify) && s == State({}, 0, s.notify, Start, {}, {})
  }

  ghost predicate Next(s: State, t: State) {
    exists l :: Enabled(s, l) && t == Do(s, l)
  }

  /** Reasons beside a consumer that still waits for its grant have a `notify_one` coming. */
  ghost predicate Inv(s: State) {
    && N.Inv(s.notify)
    && s.received + s.reasons == s.sent
    && s.notify.tasks.Keys == (if s.pc == Start then {} else {0})
    && (s.pc == Awaiting || s.pc == Returning ==> N.Armed(s.notify, 0))
    && (s.pc == Awaiting && s.reasons != {} && N.Waits(s.notify, 0) ==> s.owed > 0)
  }

  /** With a single future, a single notification reaches it if it waits. */
  lemma NotifyOneReachesTheConsumer(n: N.State)
    requires N.Inv(n) && n.tasks.Keys <= {0}
    ensures !N.Waits(N.Do(n, N.NotifyOne), 0)
  {
    if N.Waits(n, 0) {
      var id := n.tasks[0].fut.registration.value;
      assert N.Owns(n.tasks, 0, id);
      var head := n.core.queue.fifo[0];
      assert head in n.core.queue.fifo;
      assert head in n.core.queue.live;
      var f: nat :| N.Owns(n.tasks, f, head);
      assert f == 0 && head == id;
    } else if 0 in n.tasks && n.tasks[0].fut.registration.Some? {
      assert N.Owns(n.tasks, 0, n.tasks[0].fut.registration.value);
    }
  }

  lemma StepKeeps(s: State, l: Label)
    requires Inv(s) && Enabled(s, l)
    ensures Inv(Do(s, l))
  {
    match l
    case CreateNotified => N.StepKeeps(s.notify, N.Create(0));
    case Step(inner) => InnerKeeps(s, inner);
    case Swap => assert N.TaskOk(s.notify.tasks[0], s.notify.core.generation);
    case Again => N.StepKeeps(s.notify, N.Drop(0));
    case Return => N.StepKeeps(s.notify, N.Drop(0));
    case Cancel => N.StepKeeps(s.notify, N.Drop(0));
    case Raise(_) =>
    case NotifyOne =>
      InnerKeeps(s.(owed := s.owed - 1, pc := if s.pc == Awaiting then Returning else s.pc), N.NotifyOne);
      NotifyOneReachesTheConsumer(s.notify);
    case Wake(w) => InnerKeeps(s, N.Wake(w));
  }

  lemma InnerKeeps(s: State, inner: N.Label)
    requires Inv(s) && N.Enabled(s.notify, inner) && !inner.Create? && !inner.Drop?
    ensures Inv(s.(notify := N.Do(s.notify, inner)))
  {
    N.StepKeeps(s.notify, inner);
    if N.Armed(s.notify, 0) { N.ArmedStopsWaiting(s.notify, inner, 0); }
    N.TasksStay(s.notify, inner);
  }

  lemma RunsKeepInv(run: seq<State>)
    requires IsRun(Init, Next, run)
    ensures forall i :: 0 <= i < |run| ==> Inv(run[i])
  {
    forall s | Init(s) ensures Inv(s) {
      assert Ones(s.notify.core.queue.live) == {} && N.Reserved(s.notify.tasks) == {};
    }
    forall s, t | Inv(s) && Next(s, t) ensures Inv(t) {
      var l :| Enabled(s, l) && t == Do(s, l);
      StepKeeps(s, l);
    }
    Invariance(Init, Next, Inv, run);
  }

  /**
   A parked consumer with pending reasons is about to be notified or already being woken. What
   `wait` returned and what is pending are together exactly what was passed to `wake`.
   */
  lemma ParkedConsumerIsNotified(run: seq<State>, i: nat)
    requires IsRun(Init, Next, run) && i < |run|
    ensures run[i].received + run[i].reasons == run[i].sent
    ensures run[i].pc == Awaiting && 0 in run[i].notify.tasks && run[i].notify.tasks[0].parked && run[i].reasons != {}
            ==> run[i].owed > 0 || 0 in run[i].notify.wakes
  {
    RunsKeepInv(run);
    var n := run[i].notify;
    assert Inv(run[i]);
    if run[i].pc == Awaiting && 0 in n.tasks && n.tasks[0].parked && run[i].reasons != {} {
      assert N.TaskOk(n.tasks[0], n.core.generation);
      assert N.Owns(n.tasks, 0, n.tasks[0].fut.registration.value);
    }
  }

  // ---------- The object ----------

  lemma RegisterLeavesNoTrace(q: QueueView, id: nat)
    requires WellFormed(q) && id !in q.live
    ensures RemoveView(RegisterView(q, id, None), id) == q
  {
    var longer := q.fifo + [id];
    assert Distinct(longer) && longer[|q.fifo|] == id;
    WithoutAt(longer, |q.fifo|);
    assert longer[..|q.fifo|] + longer[|q.fifo| + 1..] == q.fifo;
    assert q.live[id := Registration(Queued, None)] - {id} == q.live;
  }

  /**
   A pass of `wait` run alone: notifier and future after the enabling, and the notifier and the waker
   called if reasons end it.
   */
  function PassAlone(c: N.Core, reasons: set<nat>, id: nat): (N.Core, N.Fut, Option<WakerId>) {
    var (core, fut, ready) := N.ReadyCall(c, N.Fut(c.generation, None, false, false), None, id);
    if reasons == {} then (core, fut, None)
    else
      var (dropped, wake) := N.DropSection(core, fut);
      (dropped, fut, wake)
  }

  /** The steps of one pass up to the taking of the reasons. */
  ghost function PassSteps(s: State, id: nat): State
    requires s.pc == Start && 0 !in s.notify.tasks && id !in s.notify.core.queue.live
  {
    var t1 := Do(s, CreateNotified);
    var t2 := Do(t1, Step(N.Begin(0, false)));
    var t3 := if t2.notify.tasks[0].pc.AtPermit? then Do(t2, Step(N.TryPermit(0))) else t2;
    if t3.notify.tasks[0].pc.AtLock? then Do(t3, Step(N.Locked(0, id))) else t3
  }

  lemma PassEnables(s: State, id: nat)
    requires s.pc == Start && 0 !in s.notify.tasks && id !in s.notify.core.queue.live
    ensures var created := N.Do(s.notify, N.Create(0));
            && N.Enabled(created, N.Begin(0, false)) && id !in created.core.queue.live
            && PassSteps(s, id) == s.(pc := Enabling, notify := N.CallSteps(created, 0, id, false))
  {
  }

  /** Run back to back, the protocol's steps for one pass are one whole pass of the object. */
  lemma PassIsItsSteps(s: State, id: nat)
    requires Inv(s) && s.pc == Start && id !in s.notify.core.queue.live
    ensures var (core, fut, wake) := PassAlone(s.notify.core, s.reasons, id);
            var t := PassSteps(s, id);
            && Enabled(t, Swap)
            && (var u := Do(t, Swap);
                && u.reasons == {} && u.received == s.received + s.reasons
                && (if s.reasons == {} then u.pc == Awaiting && u.notify.core == core && u.notify.tasks[0].fut == fut
                    else Enabled(u, Return) && Do(u, Return).notify.core == core))
  {
    PassEnables(s, id);
    N.StepKeeps(s.notify, N.Create(0));
    N.CallIsItsSteps(N.Do(s.notify, N.Create(0)), 0, id, false);
    var t := PassSteps(s, id);
    assert t.notify.tasks[0].pc == N.Idle;
    DropIsItsSection(t.notify);
  }

  lemma DropIsItsSection(n: N.State)
    requires N.Enabled(n, N.Drop(0))
    ensures N.Do(n, N.Drop(0)).core == N.DropSection(n.core, n.tasks[0].fut).0
  {
  }

  class Signals {
    var reasons: set<nat>
    const notify: N.Notify

    constructor ()
      ensures fresh(notify) && fresh(notify.waiters) && notify.Valid()
      ensures reasons == {} && notify.View() == N.Core(false, 0, EMPTY_VIEW)
    {
      reasons := {};
      notify := new N.Notify();
    }

    /** `ReadyHandle::wake`. */
    method Wake(bits: set<nat>, ghost s: State) returns (wake: Option<WakerId>)
      requires notify.Valid() && reasons == s.reasons && notify.View() == s.notify.core
      modifies this`reasons, notify`permit, notify.waiters
      ensures notify.Valid() && reasons == DoRaise(s, bits).reasons
      ensures (notify.View(), wake) == if DoRaise(s, bits).owed > s.owed then N.GrantSection(s.notify.core)
              else (s.notify.core, None)
      ensures reasons == old(reasons) + bits
      ensures old(reasons) != {} || bits == {} ==> notify.View() == old(notify.View()) && wake == None
      ensures old(reasons) == {} && bits != {} ==> (notify.View(), wake) == N.GrantSection(old(notify.View()))
    {
      wake := None;
      if bits != {} {
        var before := reasons;
        reasons := reasons + bits;
        if before == {} { wake := notify.GrantOne(); }
      }
    }

    /**
     One pass of `wait` up to its await: enables a fresh future, then takes the reasons. Reasons
     end the wait and drop the future, which leaves no trace: a permit it had reserved is stored again.
     No reasons leave it armed.
     */
    method Pass() returns (taken: set<nat>, pending: Option<N.Notified>, wake: Option<WakerId>, ghost id: nat)
      requires notify.Valid()
      modifies this`reasons, notify`permit, notify.waiters
      ensures taken == old(reasons) && reasons == {} && notify.Valid()
      ensures pending.Some? <==> taken == {}
      ensures pending.Some? ==> fresh(pending.value) && pending.value.notify == notify && pending.value.Valid()
                                && (pending.value.done || pending.value.registration.Some?)
                                && (pending.value.View().reserved <==> old(notify.permit))
      ensures id !in old(notify.View()).queue.live || (pending.Some? ==> pending.value.registration.None?)
      ensures var (core, fut, called) := PassAlone(old(notify.View()), taken, id);
              notify.View() == core && wake == called && (pending.Some? ==> pending.value.View() == fut)
      ensures pending.None? && (old(notify.permit) ==> old(notify.View()).queue.fifo == [])
              ==> notify.View() == old(notify.View()) && wake == None
    {
      ghost var queue := notify.View().queue;
      var notified := new N.Notified(notify);
      var ready := notified.ReadyOrRegister(None);
      id := if notified.registration.Some? then notified.registration.value else 0;
      taken := reasons;
      reasons := {};
      if taken == {} { return taken, Some(notified), None, id; }
      if id !in queue.live { RegisterLeavesNoTrace(queue, id); }
      wake := notified.Drop();
      pending := None;
    }
  }

  // ---------- Coarse deadlines ----------

  const MAX: nat := 0xFFFF_FFFF_FFFF_FFFF

  /** `coarse_deadline`: rounds up to the quantum; nothing when that leaves the usable range. */
  function CoarseDeadline(deadline: nat, quantum: nat): (r: Option<nat>)
    requires deadline <= MAX && 0 < quantum <= MAX
  {
    var remainder := deadline % quantum;
    var extra := if remainder == 0 then 0 else quantum - remainder;
    if deadline + extra <= MAX && deadline + extra != MAX then Some(deadline + extra) else None
  }

  /** The `k`th multiple of `n`. */
  function Times(k: nat, n: nat): nat {
    if k == 0 then 0 else Times(k - 1, n) + n
  }

  lemma {:induction false} TimesMonotone(a: nat, b: nat, n: nat)
    requires a <= b
    ensures Times(a, n) <= Times(b, n)
  {
    if a < b { TimesMonotone(a, b - 1, n); }
  }

  lemma {:induction false} TimesIsProduct(k: nat, n: nat)
    ensures Times(k, n) == k * n
  {
    if k > 0 {
      TimesIsProduct(k - 1, n);
      assert k * n == (k - 1) * n + n;
    }
  }

  lemma DivisionSplits(a: nat, n: nat) returns (q: nat)
    requires n > 0
    ensures a == Times(q, n) + a % n
  {
    q := a / n;
    TimesIsProduct(q, n);
  }

  /**
   It is a multiple of the quantum, no earlier, and no later than any multiple that is not earlier;
   it fails just when every such multiple reaches the sentinel.
   */
  lemma CoarseIsLeastMultiple(deadline: nat, quantum: nat, k: nat)
    requires deadline <= MAX && 0 < quantum <= MAX && Times(k, quantum) >= deadline
    ensures match CoarseDeadline(deadline, quantum)
            case Some(v) => deadline <= v < MAX && v <= Times(k, quantum) && exists m :: v == Times(m, quantum)
            case None => Times(k, quantum) >= MAX
  {
    var q := DivisionSplits(deadline, quantum);
    if deadline % quantum != 0 {
      assert Times(q + 1, quantum) == Times(q, quantum) + quantum;
      if k <= q { TimesMonotone(k, q, quantum); } else { TimesMonotone(q + 1, k, quantum); }
    }
  }
}
