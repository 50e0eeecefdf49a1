/**
 `Notify` and `Notified` (src/sync.rs). First the lock sections as functions on values, then
 the protocol that interleaves them, then the two objects themselves.

 A future is one `Notified`. Its first two checks run outside the queue lock, so each is a step
 of its own; everything under the lock is one step; and the wakers collected under the lock are
 called later, one step each. The only other write that can fall inside a lock section is the
 permit compare-exchange of some other future, and each section touches the permit once.
 */
module Notifies {
  import opened Common
  import opened Behaviours
  import opened WaitQueues

  // ---------- Sections ----------

  datatype Core = Core(permit: bool, generation: nat, queue: QueueView)

  /** The fields of one `Notified`. */
  datatype Fut = Fut(generation: nat, registration: Option<nat>, done: bool, reserved: bool)

  /** `Notify::grant_one` under the lock: the head is granted, or a permit is left. */
  function GrantSection(c: Core): (r: (Core, Option<WakerId>)) {
    if c.queue.fifo == [] then (c.(permit := true), None)
    else
      var head := c.queue.fifo[0];
      (c.(queue := GrantOneView(c.queue)), if head in c.queue.live then c.queue.live[head].waker else None)
  }

  /** `notify_waiters` under the lock. */
  function BroadcastSection(c: Core): Core {
    c.(generation := c.generation + 1, queue := GrantAllView(c.queue))
  }

  /** What a lock section of `ready_or_register` finds: a grant of its own, a broadcast, a permit, or nothing. */
  function Notification(c: Core, fut: Fut): Option<WakeKind> {
    if fut.registration.Some? && fut.registration.value in c.queue.live
       && c.queue.live[fut.registration.value].kind != Queued then Some(c.queue.live[fut.registration.value].kind)
    else if c.generation != fut.generation then Some(All)
    else if c.permit then Some(One)
    else None
  }

  /** Whether that notification is the stored permit, which finding it consumes. */
  predicate TakesPermit(c: Core, fut: Fut) {
    && c.permit
    && c.generation == fut.generation
    && (fut.registration.Some? && fut.registration.value in c.queue.live ==>
          c.queue.live[fut.registration.value].kind == Queued)
  }

  function Released(q: QueueView, registration: Option<nat>): QueueView {
    if registration.Some? then RemoveView(q, registration.value) else q
  }

  /** The lock section of `ready_or_register`; `id` is the slot a first registration gets. */
  function ReadySection(c: Core, fut: Fut, waker: Option<WakerId>, id: nat): (r: (Core, Fut, bool)) {
    var notification := Notification(c, fut);
    if notification.Some? then
      (Core(c.permit && !TakesPermit(c, fut), c.generation, Released(c.queue, fut.registration)),
       fut.(registration := None, done := true, reserved := notification == Some(One)),
       true)
    else
      var slot := if fut.registration.Some? then fut.registration.value else id;
      (c.(queue := RegisterView(c.queue, slot, waker)), fut.(registration := Some(slot)), false)
  }

  /** `Drop for Notified`: an undelivered single notification is handed on. */
  function DropSection(c: Core, fut: Fut): (r: (Core, Option<WakerId>)) {
    if fut.reserved then GrantSection(c)
    else if fut.registration.None? then (c, None)
    else
      var released := c.(queue := Released(c.queue, fut.registration));
      if fut.registration.value in c.queue.live && c.queue.live[fut.registration.value].kind == One
      then GrantSection(released)
      else (released, None)
  }

  // ---------- The protocol ----------

  /** Where a future stands inside `enable` or `poll`; `Fresh` until its first call. */
  datatype Pc = Fresh | Idle | AtPermit(polling: bool) | AtLock(polling: bool)

  datatype Task = Task(fut: Fut, pc: Pc, parked: bool)

  /**
   `wakes` holds the wakers taken under the lock and not called yet. The three counters are
   bookkeeping of this model: calls of `notify_one`, single notifications a poll returned, and
   calls that found a permit already stored.
   */
  datatype State = State(core: Core, tasks: map<nat, Task>, wakes: multiset<WakerId>,
                         calls: nat, delivered: nat, coalesced: nat)

  datatype Label =
    | Create(f: nat)
    | Begin(f: nat, polling: bool)
    | TryPermit(f: nat)
    | Locked(f: nat, id: nat)
    | NotifyOne
    | NotifyWaiters
    | Wake(w: WakerId)
    | Drop(f: nat)

  ghost predicate Enabled(s: State, l: Label) {
    match l
    case Create(f) => f !in s.tasks
    case Begin(f, polling) => f in s.tasks && (s.tasks[f].pc == Fresh || s.tasks[f].pc == Idle)
    case TryPermit(f) => f in s.tasks && s.tasks[f].pc.AtPermit?
    case Locked(f, id) =>
      f in s.tasks && s.tasks[f].pc.AtLock? && (s.tasks[f].fut.registration.None? ==> id !in s.core.queue.live)
    case NotifyOne => true
    case NotifyWaiters => true
    case Wake(w) => w in s.wakes
    case Drop(f) => f in s.tasks && (s.tasks[f].pc == Fresh || s.tasks[f].pc == Idle)
  }

  /** The steps of `enable` or of a poll of `f`'s future. */
  ghost predicate CallStep(f: nat, l: Label, polling: bool) {
    l == Begin(f, polling) || l == TryPermit(f) || (l.Locked? && l.f == f)
  }

  /** `ready_or_register` returned true with `fut`; a poll then delivers what was reserved. */
  function Complete(s: State, f: nat, fut: Fut, polling: bool): State {
    s.(tasks := s.tasks[f := Task(if polling then fut.(reserved := false) else fut, Idle, false)],
       delivered := s.delivered + if polling && fut.reserved then 1 else 0)
  }

  function Grant(s: State): State {
    var (core, waker) := GrantSection(s.core);
    s.(core := core, wakes := s.wakes + Bag(waker),
       coalesced := s.coalesced + if s.core.queue.fifo == [] && s.core.permit then 1 else 0)
  }

  /** `self.done`, then the generation check that runs before any atomic write. */
  function DoBegin(s: State, f: nat, polling: bool): State
    requires f in s.tasks
  {
    var fut := s.tasks[f].fut;
    if fut.done then Complete(s, f, fut, polling)
    else if fut.registration.Some? then s.(tasks := s.tasks[f := Task(fut, AtLock(polling), false)])
    else if s.core.generation != fut.generation then Complete(s, f, fut.(done := true), polling)
    else s.(tasks := s.tasks[f := Task(fut, AtPermit(polling), false)])
  }

  function DoTryPermit(s: State, f: nat): State
    requires f in s.tasks && s.tasks[f].pc.AtPermit?
  {
    var t := s.tasks[f];
    if s.core.permit then
      Complete(s.(core := s.core.(permit := false)), f, t.fut.(done := true, reserved := true), t.pc.polling)
    else s.(tasks := s.tasks[f := t.(pc := AtLock(t.pc.polling))])
  }

  function DoLocked(s: State, f: nat, id: nat): State
    requires f in s.tasks && s.tasks[f].pc.AtLock?
  {
    var t := s.tasks[f];
    var (core, fut, ready) := ReadySection(s.core, t.fut, if t.pc.polling then Some(f) else None, id);
    if ready then Complete(s.(core := core), f, fut, t.pc.polling)
    else s.(core := core, tasks := s.tasks[f := Task(fut, Idle, t.pc.polling)])
  }

  function DoBroadcast(s: State): State {
    s.(core := BroadcastSection(s.core), wakes := s.wakes + multiset(WakersOf(s.core.queue.fifo, s.core.queue.live)))
  }

  function DoWake(s: State, w: WakerId): State {
    s.(wakes := s.wakes - multiset{w},
       tasks := if w in s.tasks then s.tasks[w := s.tasks[w].(parked := false)] else s.tasks)
  }

  function DoDrop(s: State, f: nat): State
    requires f in s.tasks
  {
    var fut := s.tasks[f].fut;
    var (core, waker) := DropSection(s.core, fut);
    var handsOn := fut.reserved || (fut.registration.Some? && fut.registration.value in s.core.queue.live
                                    && s.core.queue.live[fut.registration.value].kind == One);
    var waiting := if fut.reserved then s.core.queue.fifo else Released(s.core.queue, fut.registration).fifo;
    s.(core := core, wakes := s.wakes + Bag(waker), tasks := s.tasks - {f},
       coalesced := s.coalesced + if handsOn && waiting == [] && s.core.permit then 1 else 0)
  }

  function Do(s: State, l: Label): State
    requires Enabled(s, l)
  {
    match l
    case Create(f) => s.(tasks := s.tasks[f := Task(Fut(s.core.generation, None, false, false), Fresh, false)])
    case Begin(f, polling) => DoBegin(s, f, polling)
    case TryPermit(f) => DoTryPermit(s, f)
    case Locked(f, id) => DoLocked(s, f, id)
    case NotifyOne => Grant(s).(calls := s.calls + 1)
    case NotifyWaiters => DoBroadcast(s)
    case Wake(w) => DoWake(s, w)
    case Drop(f) => DoDrop(s, f)
  }

  ghost predicate Init(s: State) {
    s == State(Core(false, 0, EMPTY_VIEW), map[], multiset{}, 0, 0, 0)
  }

  ghost predicate Next(s: State, t: State) {
    exists l :: Enabled(s, l) && t == Do(s, l)
  }

  // ---------- The invariant ----------

  ghost predicate Owns(tasks: map<nat, Task>, f: nat, id: nat) {
    f in tasks && tasks[f].fut.registration == Some(id)
  }

  /** `f` is registered and still waiting for its grant. */
  ghost predicate Waits(s: State, f: nat) {
    && f in s.tasks
    && s.tasks[f].fut.registration.Some?
    && s.tasks[f].fut.registration.value in s.core.queue.live
    && s.core.queue.live[s.tasks[f].fut.registration.value].kind == Queued
  }

  /** Registrations and live slots are in one-to-one correspondence. */
  ghost predicate Paired(q: QueueView, tasks: map<nat, Task>) {
    && (forall f, id :: Owns(tasks, f, id) ==> id in q.live)
    && (forall f, g, id :: Owns(tasks, f, id) && Owns(tasks, g, id) ==> f == g)
    && (forall id :: id in q.live ==> exists f :: Owns(tasks, f, id))
  }

  /** What each future's own fields promise about its phase. */
  ghost predicate TaskOk(t: Task, generation: nat) {
    && t.fut.generation <= generation
    && (t.fut.done ==> t.fut.registration == None && t.pc == Idle)
    && (t.fut.reserved ==> t.fut.done)
    && (t.pc == Fresh || t.pc.AtPermit? ==> t.fut.registration == None)
    && (t.pc == Idle ==> t.fut.done || t.fut.registration.Some?)
    && (t.parked ==> t.pc == Idle && !t.fut.done)
  }

  /** A registered future's slot: still queued under the current generation, or granted. */
  ghost predicate SlotOk(s: State, f: nat, r: Registration)
    requires f in s.tasks
  {
    && (r.waker.Some? ==> r.waker.value == f)
    && (r.kind == Queued ==> s.tasks[f].fut.generation == s.core.generation)
    && (r.kind == Queued && s.tasks[f].parked ==> r.waker == Some(f))
    && (r.kind != Queued && s.tasks[f].parked ==> f in s.wakes)
  }

  function Reserved(tasks: map<nat, Task>): set<nat> {
    set f | f in tasks && tasks[f].fut.reserved
  }

  /** Where the single notifications are now. */
  function Accounted(s: State): nat {
    s.delivered + (if s.core.permit then 1 else 0) + |Ones(s.core.queue.live)| + |Reserved(s.tasks)| + s.coalesced
  }

  /** The shape of the queue and of everyone registered in it. */
  ghost predicate Structure(s: State) {
    && WellFormed(s.core.queue)
    && (s.core.permit ==> s.core.queue.fifo == [])
    && Paired(s.core.queue, s.tasks)
    && (forall f :: f in s.tasks ==> TaskOk(s.tasks[f], s.core.generation))
    && (forall f, id :: Owns(s.tasks, f, id) ==> SlotOk(s, f, s.core.queue.live[id]))
  }

  /** Every single notification is in exactly one place. */
  ghost predicate Inv(s: State) {
    Structure(s) && s.calls == Accounted(s)
  }

  // ---------- Counting ----------

  lemma ReservedAfterSet(tasks: map<nat, Task>, f: nat, t: Task)
    ensures |Reserved(tasks[f := t])| == |Reserved(tasks) - {f}| + (if t.fut.reserved then 1 else 0)
  {
    if t.fut.reserved {
      assert Reserved(tasks[f := t]) == (Reserved(tasks) - {f}) + {f};
    } else {
      assert Reserved(tasks[f := t]) == Reserved(tasks) - {f};
    }
  }

  // ---------- Every step keeps the invariant ----------

  /** Futures that keep their registrations keep the pairing. */
  lemma PairedFrame(q: QueueView, tasks: map<nat, Task>, after: map<nat, Task>)
    requires Paired(q, tasks)
    requires forall f, id :: Owns(tasks, f, id) <==> Owns(after, f, id)
    ensures Paired(q, after)
  {
    forall id | id in q.live ensures exists g :: Owns(after, g, id) {
      var g :| Owns(tasks, g, id);
      assert Owns(after, g, id);
    }
  }

  lemma CreateKeeps(s: State, f: nat)
    requires Inv(s) && Enabled(s, Create(f))
    ensures Inv(Do(s, Create(f)))
  {
    var t := Do(s, Create(f));
    ReservedAfterSet(s.tasks, f, t.tasks[f]);
    DropElement(Reserved(s.tasks), f);
    PairedFrame(s.core.queue, s.tasks, t.tasks);
    forall g, id: nat | Owns(t.tasks, g, id) ensures SlotOk(t, g, t.core.queue.live[id]) {
      assert Owns(s.tasks, g, id);
    }
  }

  /** A step that rewrites one future but neither its registration nor the queue. */
  lemma RewriteKeeps(s: State, f: nat, t: Task, permit: bool, delivered: nat)
    requires Inv(s) && f in s.tasks && t.fut.registration == s.tasks[f].fut.registration
    requires TaskOk(t, s.core.generation) && t.fut.generation == s.tasks[f].fut.generation && !t.parked
    requires permit ==> s.core.permit
    requires delivered + (if permit then 1 else 0) + (if t.fut.reserved then 1 else 0)
             == s.delivered + (if s.core.permit then 1 else 0) + (if s.tasks[f].fut.reserved then 1 else 0)
    ensures Inv(s.(core := s.core.(permit := permit), tasks := s.tasks[f := t], delivered := delivered))
  {
    var u := s.(core := s.core.(permit := permit), tasks := s.tasks[f := t], delivered := delivered);
    forall g, id: nat ensures Owns(s.tasks, g, id) <==> Owns(u.tasks, g, id) {}
    PairedFrame(s.core.queue, s.tasks, u.tasks);
    ReservedAfterSet(s.tasks, f, t);
    DropElement(Reserved(s.tasks), f);
    RewriteSlots(s, u, f);
  }

  lemma RewriteSlots(s: State, u: State, f: nat)
    requires f in s.tasks && f in u.tasks && u.tasks == s.tasks[f := u.tasks[f]]
    requires u.core.queue == s.core.queue && u.core.generation == s.core.generation && u.wakes == s.wakes
    requires !u.tasks[f].parked && u.tasks[f].fut.registration == s.tasks[f].fut.registration
    requires u.tasks[f].fut.generation == s.tasks[f].fut.generation
    requires forall g, id :: Owns(s.tasks, g, id) ==> id in s.core.queue.live && SlotOk(s, g, s.core.queue.live[id])
    ensures forall g, id :: Owns(u.tasks, g, id) ==> id in u.core.queue.live && SlotOk(u, g, u.core.queue.live[id])
  {
    forall g, id: nat | Owns(u.tasks, g, id) ensures id in u.core.queue.live && SlotOk(u, g, u.core.queue.live[id]) {
      assert Owns(s.tasks, g, id);
    }
  }

  lemma BeginKeeps(s: State, f: nat, polling: bool)
    requires Inv(s) && Enabled(s, Begin(f, polling))
    ensures Inv(Do(s, Begin(f, polling)))
  {
    BeginRewrites(s, f, polling);
    assert TaskOk(s.tasks[f], s.core.generation);
    var t := DoBegin(s, f, polling);
    RewriteKeeps(s, f, t.tasks[f], s.core.permit, t.delivered);
  }

  lemma BeginRewrites(s: State, f: nat, polling: bool)
    requires f in s.tasks
    ensures var t := DoBegin(s, f, polling);
            && f in t.tasks
            && t == s.(core := s.core.(permit := s.core.permit), tasks := s.tasks[f := t.tasks[f]],
                       delivered := t.delivered)
  {
  }

  lemma TryPermitKeeps(s: State, f: nat)
    requires Inv(s) && Enabled(s, TryPermit(f))
    ensures Inv(Do(s, TryPermit(f)))
  {
    var t := Do(s, TryPermit(f));
    RewriteKeeps(s, f, t.tasks[f], t.core.permit, t.delivered);
    assert t == s.(core := s.core.(permit := t.core.permit), tasks := s.tasks[f := t.tasks[f]],
                   delivered := t.delivered);
  }

  /** Releasing `f`'s slot, if any, while rewriting `f` to something unregistered keeps the pairing. */
  lemma PairedRelease(q: QueueView, tasks: map<nat, Task>, f: nat, after: map<nat, Task>)
    requires Paired(q, tasks) && f in tasks
    requires forall g :: g != f ==> (g in tasks <==> g in after) && (g in tasks ==> after[g] == tasks[g])
    requires f in after ==> after[f].fut.registration == None
    ensures Paired(Released(q, tasks[f].fut.registration), after)
    ensures forall g, id: nat :: Owns(after, g, id) ==>
              g != f && Owns(tasks, g, id) && Some(id) != tasks[f].fut.registration
  {
    var released := Released(q, tasks[f].fut.registration);
    forall g, id: nat | Owns(after, g, id)
      ensures g != f && Owns(tasks, g, id) && Some(id) != tasks[f].fut.registration && id in released.live
    {
      assert Owns(tasks, g, id);
      if Some(id) == tasks[f].fut.registration { assert Owns(tasks, f, id); }
    }
    forall id | id in released.live ensures exists g :: Owns(after, g, id) {
      var g :| Owns(tasks, g, id);
      assert Owns(after, g, id);
    }
  }

  /** What a lock section that finds `notification` does. */
  function Found(s: State, f: nat, notification: WakeKind): State
    requires f in s.tasks && s.tasks[f].pc.AtLock?
  {
    var fut := s.tasks[f].fut;
    var released := Released(s.core.queue, fut.registration);
    var core := Core(s.core.permit && !TakesPermit(s.core, fut), s.core.generation, released);
    Complete(s.(core := core), f, fut.(registration := None, done := true, reserved := notification == One),
             s.tasks[f].pc.polling)
  }

  lemma LockedNotifies(s: State, f: nat, id: nat)
    requires Enabled(s, Locked(f, id)) && Notification(s.core, s.tasks[f].fut).Some?
    ensures Do(s, Locked(f, id)) == Found(s, f, Notification(s.core, s.tasks[f].fut).value)
  {
  }

  /** Releasing a slot leaves the queue well formed, and takes its grant, if it was a single one, out of the account. */
  lemma ReleasedQueue(s: State, f: nat)
    requires Structure(s) && f in s.tasks
    ensures var registration := s.tasks[f].fut.registration;
            var released := Released(s.core.queue, registration);
            && WellFormed(released) && (s.core.permit ==> released.fifo == [])
            && (registration.Some? ==> registration.value in s.core.queue.live)
            && |Ones(released.live)| == |Ones(s.core.queue.live)|
               - (if registration.Some? && s.core.queue.live[registration.value].kind == One then 1 else 0)
  {
    var registration := s.tasks[f].fut.registration;
    if registration.Some? {
      assert Owns(s.tasks, f, registration.value);
      RemoveKeepsWellFormed(s.core.queue, registration.value);
      OnesAfterRemove(s.core.queue.live, registration.value);
      DropElement(Ones(s.core.queue.live), registration.value);
    }
  }

  /** Whoever keeps a slot when `f`'s is released keeps what the slot promises. */
  lemma ReleasedSlots(s: State, f: nat, t: State)
    requires Structure(s) && f in s.tasks && t.core.generation == s.core.generation && t.wakes == s.wakes
    requires t.core.queue == Released(s.core.queue, s.tasks[f].fut.registration)
    requires forall g :: g != f ==> (g in s.tasks <==> g in t.tasks) && (g in s.tasks ==> t.tasks[g] == s.tasks[g])
    requires f in t.tasks ==> t.tasks[f].fut.registration == None
    ensures Paired(t.core.queue, t.tasks)
    ensures forall g, i :: Owns(t.tasks, g, i) ==> SlotOk(t, g, t.core.queue.live[i])
  {
    PairedRelease(s.core.queue, s.tasks, f, t.tasks);
    forall g, i: nat | Owns(t.tasks, g, i) ensures SlotOk(t, g, t.core.queue.live[i]) {
      assert Owns(s.tasks, g, i);
      assert SlotOk(s, g, s.core.queue.live[i]);
    }
  }

  lemma LockedReadyKeeps(s: State, f: nat, id: nat)
    requires Inv(s) && Enabled(s, Locked(f, id)) && Notification(s.core, s.tasks[f].fut).Some?
    ensures Inv(Do(s, Locked(f, id)))
  {
    var t := Found(s, f, Notification(s.core, s.tasks[f].fut).value);
    LockedNotifies(s, f, id);
    ReleasedQueue(s, f);
    ReleasedSlots(s, f, t);
    FoundAccount(s, f);
    assert TaskOk(s.tasks[f], s.core.generation);
  }

  lemma FoundAccount(s: State, f: nat)
    requires Structure(s) && f in s.tasks && s.tasks[f].pc.AtLock? && Notification(s.core, s.tasks[f].fut).Some?
    ensures Accounted(Found(s, f, Notification(s.core, s.tasks[f].fut).value)) == Accounted(s)
  {
    var t := Found(s, f, Notification(s.core, s.tasks[f].fut).value);
    assert TaskOk(s.tasks[f], s.core.generation);
    ReleasedQueue(s, f);
    if s.tasks[f].fut.registration.Some? {
      assert Owns(s.tasks, f, s.tasks[f].fut.registration.value);
      assert SlotOk(s, f, s.core.queue.live[s.tasks[f].fut.registration.value]);
    }
    ReservedAfterSet(s.tasks, f, t.tasks[f]);
    DropElement(Reserved(s.tasks), f);
  }

  /** `f` owning `slot`, whether it did before or the slot is new, keeps the pairing. */
  lemma PairedRegister(q: QueueView, tasks: map<nat, Task>, f: nat, slot: nat, after: map<nat, Task>, p: QueueView)
    requires Paired(q, tasks) && f in tasks && f in after && after == tasks[f := after[f]]
    requires after[f].fut.registration == Some(slot) && p.live.Keys == q.live.Keys + {slot}
    requires if tasks[f].fut.registration.Some? then tasks[f].fut.registration == Some(slot) else slot !in q.live
    ensures Paired(p, after)
    ensures forall g, id: nat :: Owns(after, g, id) && g != f ==> Owns(tasks, g, id) && id != slot
  {
    assert tasks[f].fut.registration.Some? ==> Owns(tasks, f, slot);
    assert Owns(after, f, slot);
    forall g, id: nat | Owns(after, g, id) && g != f ensures Owns(tasks, g, id) && id != slot {
      assert Owns(tasks, g, id);
    }
    forall id | id in p.live ensures exists g :: Owns(after, g, id) {
      if id != slot {
        var g :| Owns(tasks, g, id);
        assert Owns(after, g, id);
      }
    }
  }

  /** What a lock section that finds nothing does. */
  function Registered(s: State, f: nat, slot: nat): State
    requires f in s.tasks && s.tasks[f].pc.AtLock?
  {
    var polling := s.tasks[f].pc.polling;
    s.(core := s.core.(queue := RegisterView(s.core.queue, slot, if polling then Some(f) else None)),
       tasks := s.tasks[f := Task(s.tasks[f].fut.(registration := Some(slot)), Idle, polling)])
  }

  lemma LockedRegisters(s: State, f: nat, id: nat)
    requires Enabled(s, Locked(f, id)) && Notification(s.core, s.tasks[f].fut).None?
    ensures var registration := s.tasks[f].fut.registration;
            Do(s, Locked(f, id)) == Registered(s, f, if registration.Some? then registration.value else id)
  {
  }

  lemma LockedRegisterKeeps(s: State, f: nat, id: nat)
    requires Inv(s) && Enabled(s, Locked(f, id)) && Notification(s.core, s.tasks[f].fut).None?
    ensures Inv(Do(s, Locked(f, id)))
  {
    var slot := if s.tasks[f].fut.registration.Some? then s.tasks[f].fut.registration.value else id;
    var t := Registered(s, f, slot);
    LockedRegisters(s, f, id);
    RegisteredQueue(s, f, slot);
    RegisterAccount(s, f, slot, t);
    RegisterSlots(s, f, slot, t);
  }

  /** The queue, the pairing and the future's own fields after a registration. */
  lemma RegisteredQueue(s: State, f: nat, slot: nat)
    requires Structure(s) && f in s.tasks && s.tasks[f].pc.AtLock? && Notification(s.core, s.tasks[f].fut).None?
    requires if s.tasks[f].fut.registration.Some? then s.tasks[f].fut.registration.value == slot
             else slot !in s.core.queue.live
    ensures var t := Registered(s, f, slot);
            && WellFormed(t.core.queue) && !t.core.permit && Paired(t.core.queue, t.tasks)
            && TaskOk(t.tasks[f], t.core.generation) && SlotOk(t, f, t.core.queue.live[slot])
            && t.core.queue.live == s.core.queue.live[slot := t.core.queue.live[slot]]
            && t.core.queue.live[slot].kind == Queued && slot !in Ones(s.core.queue.live)
            && forall g, i: nat :: Owns(t.tasks, g, i) && g != f ==> Owns(s.tasks, g, i) && i != slot
  {
    var t := Registered(s, f, slot);
    assert TaskOk(s.tasks[f], s.core.generation);
    if s.tasks[f].fut.registration.Some? {
      assert Owns(s.tasks, f, slot);
      assert SlotOk(s, f, s.core.queue.live[slot]);
    }
    RegisterKeepsWellFormed(s.core.queue, slot, if s.tasks[f].pc.polling then Some(f) else None);
    assert t.core.queue.live.Keys == s.core.queue.live.Keys + {slot};
    assert t.tasks == s.tasks[f := t.tasks[f]];
    PairedRegister(s.core.queue, s.tasks, f, slot, t.tasks, t.core.queue);
  }

  lemma RegisterAccount(s: State, f: nat, slot: nat, t: State)
    requires f in s.tasks && f in t.tasks && t.tasks == s.tasks[f := t.tasks[f]]
    requires t.tasks[f].fut.reserved == s.tasks[f].fut.reserved
    requires slot in t.core.queue.live && t.core.queue.live == s.core.queue.live[slot := t.core.queue.live[slot]]
    requires t.core.queue.live[slot].kind == Queued && slot !in Ones(s.core.queue.live)
    ensures |Ones(t.core.queue.live)| == |Ones(s.core.queue.live)| && |Reserved(t.tasks)| == |Reserved(s.tasks)|
  {
    OnesAfterSet(s.core.queue.live, slot, t.core.queue.live[slot]);
    DropElement(Ones(s.core.queue.live), slot);
    ReservedAfterSet(s.tasks, f, t.tasks[f]);
    DropElement(Reserved(s.tasks), f);
  }

  lemma RegisterSlots(s: State, f: nat, slot: nat, t: State)
    requires Structure(s) && f in s.tasks && slot in t.core.queue.live && f in t.tasks
    requires t.core.generation == s.core.generation && t.wakes == s.wakes
    requires t.tasks == s.tasks[f := t.tasks[f]] && t.tasks[f].fut.registration == Some(slot)
    requires t.core.queue.live == s.core.queue.live[slot := t.core.queue.live[slot]]
    requires SlotOk(t, f, t.core.queue.live[slot])
    requires forall g, i: nat :: Owns(t.tasks, g, i) && g != f ==> Owns(s.tasks, g, i) && i != slot
    ensures forall g, i :: Owns(t.tasks, g, i) ==> i in t.core.queue.live && SlotOk(t, g, t.core.queue.live[i])
  {
    forall g, i: nat | Owns(t.tasks, g, i) ensures i in t.core.queue.live && SlotOk(t, g, t.core.queue.live[i]) {
      if g != f {
        assert Owns(s.tasks, g, i);
        assert SlotOk(s, g, s.core.queue.live[i]);
      }
    }
  }

  /** Granting the head, or leaving a permit, adds exactly one single notification to the account. */
  lemma GrantKeeps(s: State)
    requires Structure(s)
    ensures Structure(Grant(s)) && Accounted(Grant(s)) == Accounted(s) + 1
  {
    var t := Grant(s);
    if s.core.queue.fifo != [] {
      var head := s.core.queue.fifo[0];
      GrantHeadKeepsWellFormed(s.core.queue, One);
      OnesAfterSet(s.core.queue.live, head, Registration(One, None));
      DropElement(Ones(s.core.queue.live), head);
      assert head !in Ones(s.core.queue.live);
      GrantKeepsSlots(s);
    }
  }

  lemma GrantKeepsSlots(s: State)
    requires Structure(s) && s.core.queue.fifo != []
    ensures Paired(Grant(s).core.queue, s.tasks)
    ensures forall f, id :: Owns(s.tasks, f, id) ==> SlotOk(Grant(s), f, Grant(s).core.queue.live[id])
  {
    var t := Grant(s);
    assert t.core.queue.live.Keys == s.core.queue.live.Keys;
    forall f, id: nat | Owns(s.tasks, f, id) ensures SlotOk(t, f, t.core.queue.live[id]) {
      assert SlotOk(s, f, s.core.queue.live[id]);
    }
  }

  lemma BroadcastSlots(s: State)
    requires Structure(s)
    ensures var t := DoBroadcast(s);
            && Paired(t.core.queue, t.tasks)
            && forall f, id :: Owns(t.tasks, f, id) ==> id in t.core.queue.live && SlotOk(t, f, t.core.queue.live[id])
  {
    var t := DoBroadcast(s);
    assert t.core.queue.live.Keys == s.core.queue.live.Keys;
    forall f, id: nat | Owns(t.tasks, f, id) ensures id in t.core.queue.live && SlotOk(t, f, t.core.queue.live[id]) {
      assert Owns(s.tasks, f, id);
      assert SlotOk(s, f, s.core.queue.live[id]);
      if s.core.queue.live[id] == Registration(Queued, Some(f)) {
        WakersOfHas(s.core.queue.fifo, s.core.queue.live, id);
      }
    }
  }

  lemma BroadcastKeeps(s: State)
    requires Inv(s)
    ensures Inv(DoBroadcast(s))
  {
    GrantAllKeepsWellFormed(s.core.queue);
    OnesAfterGrantAll(s.core.queue);
    BroadcastSlots(s);
  }

  lemma WakeKeeps(s: State, w: WakerId)
    requires Inv(s) && Enabled(s, Wake(w))
    ensures Inv(Do(s, Wake(w)))
  {
    var t := Do(s, Wake(w));
    if w in s.tasks {

      ReservedAfterSet(s.tasks, w, t.tasks[w]);
      DropElement(Reserved(s.tasks), w);
    }
    PairedFrame(s.core.queue, s.tasks, t.tasks);
    forall g, id: nat | Owns(t.tasks, g, id) ensures SlotOk(t, g, t.core.queue.live[id]) {
      assert Owns(s.tasks, g, id);
    }
  }

  /** `f` gone and its slot released: only a single notification it held leaves the account. */
  lemma ReleaseKeeps(s: State, f: nat, gone: State)
    requires Inv(s) && Enabled(s, Drop(f))
    requires gone == s.(core := s.core.(queue := Released(s.core.queue, s.tasks[f].fut.registration)),
                        tasks := s.tasks - {f})
    ensures Structure(gone)
    ensures var fut := s.tasks[f].fut;
            var held := fut.reserved || (fut.registration.Some? && fut.registration.value in s.core.queue.live
                                         && s.core.queue.live[fut.registration.value].kind == One);
            Accounted(gone) == s.calls - (if held then 1 else 0)
  {
    assert Reserved(gone.tasks) == Reserved(s.tasks) - {f};
    DropElement(Reserved(s.tasks), f);
    assert TaskOk(s.tasks[f], s.core.generation);
    ReleasedQueue(s, f);
    ReleasedSlots(s, f, gone);
  }

  lemma DropKeeps(s: State, f: nat)
    requires Inv(s) && Enabled(s, Drop(f))
    ensures Inv(Do(s, Drop(f)))
  {
    var fut := s.tasks[f].fut;
    var gone := s.(core := s.core.(queue := Released(s.core.queue, fut.registration)), tasks := s.tasks - {f});
    ReleaseKeeps(s, f, gone);
    GrantKeeps(gone);
    assert TaskOk(s.tasks[f], s.core.generation);
    DropIsReleaseAndGrant(s, f, gone);
  }

  lemma DropIsReleaseAndGrant(s: State, f: nat, gone: State)
    requires Enabled(s, Drop(f))
    requires gone == s.(core := s.core.(queue := Released(s.core.queue, s.tasks[f].fut.registration)),
                        tasks := s.tasks - {f})
    requires s.tasks[f].fut.reserved ==> s.tasks[f].fut.registration == None
    ensures var fut := s.tasks[f].fut;
            Do(s, Drop(f)) == if fut.reserved || (fut.registration.Some? && fut.registration.value in s.core.queue.live
                                                  && s.core.queue.live[fut.registration.value].kind == One)
                              then Grant(gone) else gone
  {
    var fut := s.tasks[f].fut;
    var t := Do(s, Drop(f));
    if fut.reserved || (fut.registration.Some? && fut.registration.value in s.core.queue.live
                        && s.core.queue.live[fut.registration.value].kind == One) {
      assert t == Grant(gone);
    } else {
      assert t == gone;
    }
  }

  lemma StepKeeps(s: State, l: Label)
    requires Inv(s) && Enabled(s, l)
    ensures Inv(Do(s, l))
  {
    match l
    case Create(f) => CreateKeeps(s, f);
    case Begin(f, polling) => BeginKeeps(s, f, polling);
    case TryPermit(f) => TryPermitKeeps(s, f);
    case Locked(f, id) =>
      if Notification(s.core, s.tasks[f].fut).Some? {
        LockedReadyKeeps(s, f, id);
      } else {
        LockedRegisterKeeps(s, f, id);
      }
    case NotifyOne => GrantKeeps(s);
    case NotifyWaiters => BroadcastKeeps(s);
    case Wake(w) => WakeKeeps(s, w);
    case Drop(f) => DropKeeps(s, f);
  }

  // ---------- What every run guarantees ----------

  lemma RunsKeepInv(run: seq<State>)
    requires IsRun(Init, Next, run)
    ensures forall i :: 0 <= i < |run| ==> Inv(run[i])
  {
    forall s | Init(s) ensures Inv(s) {
      assert Ones(s.core.queue.live) == {} && Reserved(s.tasks) == {};
    }
    forall s, t | Inv(s) && Next(s, t) ensures Inv(t) {
      var l :| Enabled(s, l) && t == Do(s, l);
      StepKeeps(s, l);
    }
    Invariance(Init, Next, Inv, run);
  }

  /**
   No single notification is lost or delivered twice: every call of `notify_one` was returned by
   a poll, is the stored permit, sits in one granted slot, is reserved by one enabled future, or
   met a permit that was already stored. A stored permit means that nobody is waiting.
   */
  lemma Conservation(run: seq<State>, i: nat)
    requires IsRun(Init, Next, run) && i < |run|
    ensures run[i].calls == run[i].delivered + (if run[i].core.permit then 1 else 0)
                            + |Ones(run[i].core.queue.live)| + |Reserved(run[i].tasks)| + run[i].coalesced
    ensures run[i].core.permit ==> forall f :: !Waits(run[i], f)
  {
    RunsKeepInv(run);
  }

  /** A parked future is queued under the current generation with its own waker, or its wake is on the way. */
  lemma ParkedWillBeWoken(run: seq<State>, i: nat, f: nat)
    requires IsRun(Init, Next, run) && i < |run| && f in run[i].tasks && run[i].tasks[f].parked
    ensures f in run[i].wakes ||
            (Waits(run[i], f)
             && run[i].tasks[f].fut.generation == run[i].core.generation
             && run[i].core.queue.live[run[i].tasks[f].fut.registration.value].waker == Some(f))
  {
    RunsKeepInv(run);
    assert Inv(run[i]) && TaskOk(run[i].tasks[f], run[i].core.generation);
    assert Owns(run[i].tasks, f, run[i].tasks[f].fut.registration.value);
  }

  /** `f`'s next complete call returns ready whatever the permit does meanwhile. */
  ghost predicate Due(s: State, f: nat)
    requires f in s.tasks
  {
    var fut := s.tasks[f].fut;
    fut.done || if fut.registration.None? then fut.generation != s.core.generation else !Waits(s, f)
  }

  /** A broadcast reaches every future created before it, polled or not. */
  lemma BroadcastReachesAll(s: State, f: nat)
    requires Inv(s) && f in s.tasks
    ensures Due(Do(s, NotifyWaiters), f)
  {
    assert TaskOk(s.tasks[f], s.core.generation);
    if s.tasks[f].fut.registration.Some? {
      assert Owns(s.tasks, f, s.tasks[f].fut.registration.value);
    }
  }

  /** A granted slot stays granted in the hands of its owner while others run. */
  lemma GrantStays(s: State, l: Label, f: nat, id: nat)
    requires Inv(s) && Enabled(s, l) && Owns(s.tasks, f, id) && s.core.queue.live[id].kind != Queued
    requires l.TryPermit? || l.Locked? || l.Begin? || l.Drop? || l.Create? ==> l.f != f
    ensures Owns(Do(s, l).tasks, f, id) && Granted(Do(s, l).core, id)
  {
    OthersKeepGeneration(s, l, f);
    if (l.Locked? || l.Drop?) && s.tasks[l.f].fut.registration.Some? {
      assert Owns(s.tasks, l.f, s.tasks[l.f].fut.registration.value);
    }
    match l
    case Locked(g, slot) =>
      var waker := if s.tasks[g].pc.polling then Some(g) else None;
      ReadyLeavesOthers(s.core, s.tasks[g].fut, waker, slot, id);
    case Drop(g) => DropLeavesOthers(s.core, s.tasks[g].fut, id);
    case NotifyOne => GrantLeavesOthers(s.core, id);
    case NotifyWaiters => assert id in GrantAllView(s.core.queue).live;
    case _ =>
  }

  ghost predicate Granted(c: Core, id: nat) {
    id in c.queue.live && c.queue.live[id].kind != Queued
  }

  lemma GrantLeavesOthers(c: Core, id: nat)
    requires WellFormed(c.queue) && Granted(c, id)
    ensures Granted(GrantSection(c).0, id)
  {
  }

  lemma ReadyLeavesOthers(c: Core, fut: Fut, waker: Option<WakerId>, slot: nat, id: nat)
    requires Granted(c, id) && fut.registration != Some(id) && (fut.registration.None? ==> slot !in c.queue.live)
    ensures Granted(ReadySection(c, fut, waker, slot).0, id)
  {
  }

  lemma DropLeavesOthers(c: Core, fut: Fut, id: nat)
    requires WellFormed(c.queue) && Granted(c, id) && fut.registration != Some(id)
    ensures Granted(DropSection(c, fut).0, id)
  {
  }

  /** What is due stays due, through every step of anyone, until the future is dropped. */
  lemma DueIsStable(s: State, l: Label, f: nat)
    requires Inv(s) && Enabled(s, l) && f in s.tasks && Due(s, f) && l != Drop(f)
    ensures f in Do(s, l).tasks && Due(Do(s, l), f)
  {
    assert TaskOk(s.tasks[f], s.core.generation);
    if (l.TryPermit? || l.Locked? || l.Begin?) && l.f == f {
      if s.tasks[f].fut.registration.Some? {
        assert Owns(s.tasks, f, s.tasks[f].fut.registration.value);
      }
    } else {
      if s.tasks[f].fut.registration.Some? {
        var id := s.tasks[f].fut.registration.value;
        assert Owns(s.tasks, f, id);
        GrantStays(s, l, f, id);
      }
      OthersKeepGeneration(s, l, f);
    }
  }

  lemma GenerationGrows(s: State, l: Label)
    requires Enabled(s, l)
    ensures s.core.generation <= Do(s, l).core.generation
  {
    match l
    case Drop(g) =>
    case Locked(g, id) =>
    case _ =>
  }

  /** Others never rewrite a future's own fields, and the broadcast generation never goes back. */
  lemma OthersKeepGeneration(s: State, l: Label, f: nat)
    requires Enabled(s, l) && f in s.tasks
    requires l.TryPermit? || l.Locked? || l.Begin? || l.Drop? || l.Create? ==> l.f != f
    ensures f in Do(s, l).tasks
    ensures Do(s, l).tasks[f].fut == s.tasks[f].fut && Do(s, l).tasks[f].pc == s.tasks[f].pc
    ensures s.core.generation <= Do(s, l).core.generation
  {
    GenerationGrows(s, l);
  }

  lemma CallsAreCounted(s: State, l: Label)
    requires Enabled(s, l) && !l.NotifyOne?
    ensures Do(s, l).calls == s.calls
  {
  }

  lemma TasksStay(s: State, l: Label)
    requires Enabled(s, l) && !l.Create? && !l.Drop?
    ensures Do(s, l).tasks.Keys == s.tasks.Keys
  {
  }

  /** A due future completes at the latest in its lock section; it can no longer park. */
  lemma DueCompletes(s: State, l: Label, f: nat)
    requires Inv(s) && Enabled(s, l) && f in s.tasks && Due(s, f)
    requires l == TryPermit(f) || (l.Locked? && l.f == f) || (l.Begin? && l.f == f)
    ensures var t := Do(s, l); t.tasks[f].fut.done || (!l.Locked? && t.tasks[f].pc.AtLock? && Due(t, f))
  {
    DueIsStable(s, l, f);
    if s.tasks[f].fut.registration.Some? {
      assert Owns(s.tasks, f, s.tasks[f].fut.registration.value);
    }
  }

  lemma InvAt(run: seq<State>, i: nat)
    requires IsRun(Init, Next, run) && i < |run|
    ensures Inv(run[i])
  {
    RunsKeepInv(run);
  }

  lemma StepInRun(run: seq<State>, j: nat) returns (l: Label)
    requires IsRun(Init, Next, run) && 0 < j < |run|
    ensures Enabled(run[j - 1], l) && run[j] == Do(run[j - 1], l)
  {
    assert StepAt(Next, run, j);
    l :| Enabled(run[j - 1], l) && run[j] == Do(run[j - 1], l);
  }

  lemma DropLeavesTasks(s: State, f: nat)
    requires Enabled(s, Drop(f))
    ensures Do(s, Drop(f)).tasks == s.tasks - {f}
  {
  }

  lemma DroppedIsGone(s: State, f: nat)
    requires Enabled(s, Drop(f))
    ensures f !in Do(s, Drop(f)).tasks
  {
  }

  lemma {:induction false} DueStays(run: seq<State>, i: nat, j: nat, f: nat)
    requires IsRun(Init, Next, run) && i <= j < |run|
    requires forall m :: i <= m <= j ==> f in run[m].tasks
    requires Due(run[i], f)
    ensures Due(run[j], f)
    decreases j - i
  {
    if i < j {
      DueStays(run, i, j - 1, f);
      var l := StepInRun(run, j);
      InvAt(run, j - 1);
      if l == Drop(f) { DroppedIsGone(run[j - 1], f); }
      DueIsStable(run[j - 1], l, f);
    }
  }

  /**
   No broadcast is missed: whatever anyone does after it, every future that existed when it ran is
   owed a completion at every later moment of its life, polled by then or not.
   */
  lemma BroadcastIsOwed(run: seq<State>, i: nat, j: nat, f: nat)
    requires IsRun(Init, Next, run) && i < j < |run|
    requires run[i + 1] == Do(run[i], NotifyWaiters)
    requires forall m :: i <= m <= j ==> f in run[m].tasks
    ensures Due(run[j], f)
  {
    InvAt(run, i);
    BroadcastReachesAll(run[i], f);
    DueStays(run, i + 1, j, f);
  }

  // ---------- For code that awaits a future it enabled first ----------

  /** `f` has returned from `enable` or a poll at least once. */
  ghost predicate Armed(s: State, f: nat) {
    f in s.tasks && (s.tasks[f].fut.done || s.tasks[f].fut.registration.Some?)
  }

  /** An armed future stays armed and never starts to wait again; a broadcast ends every wait. */
  lemma ArmedStopsWaiting(s: State, l: Label, f: nat)
    requires Inv(s) && Enabled(s, l) && Armed(s, f) && l != Drop(f)
    ensures Armed(Do(s, l), f)
    ensures Waits(Do(s, l), f) ==> Waits(s, f)
    ensures l == NotifyWaiters ==> !Waits(Do(s, l), f)
  {
    if s.tasks[f].fut.registration.Some? {
      assert Owns(s.tasks, f, s.tasks[f].fut.registration.value);
    }
    if (l.TryPermit? || l.Locked? || l.Begin?) && l.f == f {
    } else {
      OthersKeepGeneration(s, l, f);
      if Armed(s, f) && !Waits(s, f) && !s.tasks[f].fut.done {
        GrantStays(s, l, f, s.tasks[f].fut.registration.value);
      }
    }
  }

  // ---------- The two objects ----------

  /** A whole call of `ready_or_register` with nobody in between. */
  function ReadyCall(c: Core, fut: Fut, waker: Option<WakerId>, id: nat): (Core, Fut, bool) {
    if fut.done then (c, fut, true)
    else if fut.registration.None? && c.generation != fut.generation then (c, fut.(done := true), true)
    else if fut.registration.None? && c.permit then
      (c.(permit := false), fut.(done := true, reserved := true), true)
    else ReadySection(c, fut, waker, id)
  }

  /**
   What a whole call decides. A grant of its own comes first; a raised generation comes before the
   permit, which it spares; and a call that finds nothing stays or becomes registered.
   */
  lemma CallDecides(c: Core, fut: Fut, waker: Option<WakerId>, id: nat)
    requires WellFormed(c.queue) && (fut.registration.Some? ==> fut.registration.value in c.queue.live)
    requires (fut.reserved ==> fut.done) && (fut.registration.None? ==> id !in c.queue.live)
    ensures var (after, f, ready) := ReadyCall(c, fut, waker, id);
            var kind := if fut.registration.Some? then c.queue.live[fut.registration.value].kind else Queued;
            && after.generation == c.generation && f.generation == fut.generation
            && (ready <==> fut.done || kind != Queued || c.generation != fut.generation || c.permit)
            && (fut.done ==> after == c && f == fut)
            && (!fut.done && ready ==> f.done && f.registration == None)
            && (!fut.done && ready ==>
                  (f.reserved <==> kind == One || (kind == Queued && c.generation == fut.generation)))
            && (after.permit <==> c.permit && (fut.done || kind != Queued || c.generation != fut.generation))
            && (!fut.done && ready ==>
                  after.queue.live
                  == if fut.registration.Some? then c.queue.live - {fut.registration.value} else c.queue.live)
            && (!ready ==>
                  && !f.done && f.registration == (if fut.registration.Some? then fut.registration else Some(id))
                  && after.queue.fifo == (if fut.registration.Some? then c.queue.fifo else c.queue.fifo + [id])
                  && f.registration.value in after.queue.live
                  && after.queue.live[f.registration.value].kind == Queued
                  && (waker.Some? ==> after.queue.live[f.registration.value].waker == waker))
  {
  }

  /** A dropped future passes on what it was granted alone or had reserved, and nothing else. */
  lemma DropDecides(c: Core, fut: Fut)
    requires WellFormed(c.queue) && (fut.registration.Some? ==> fut.registration.value in c.queue.live)
    requires fut.reserved ==> fut.registration.None?
    ensures var (after, wake) := DropSection(c, fut);
            var granted := fut.registration.Some? && c.queue.live[fut.registration.value].kind == One;
            var fifo := c.queue.fifo;
            && after.generation == c.generation
            && (fut.registration.Some? ==> fut.registration.value !in after.queue.live)
            && (!fut.reserved && !granted ==> wake == None && after.permit == c.permit)
            && (!fut.reserved && fut.registration.None? ==> after == c)
            && ((fut.reserved || granted) && fifo == [] ==> wake == None && after.permit && after.queue.fifo == [])
            && ((fut.reserved || granted) && fifo != [] ==>
                  && after.permit == c.permit && after.queue.fifo == fifo[1..]
                  && after.queue.live[fifo[0]] == Registration(One, None) && wake == c.queue.live[fifo[0]].waker)
  {
    if c.queue.fifo != [] { assert c.queue.fifo[0] in c.queue.fifo; }
  }

  /** The steps of one `enable` or one poll, nobody in between. */
  ghost function CallSteps(s: State, f: nat, id: nat, polling: bool): State
    requires Enabled(s, Begin(f, polling)) && id !in s.core.queue.live
  {
    var t1 := Do(s, Begin(f, polling));
    var t2 := if t1.tasks[f].pc.AtPermit? then Do(t1, TryPermit(f)) else t1;
    if t2.tasks[f].pc.AtLock? then Do(t2, Locked(f, id)) else t2
  }

  /** What the futures' own fields look like when a call that found nothing early reaches its lock section. */
  lemma CallReachesLock(s: State, f: nat, id: nat, polling: bool)
    requires Enabled(s, Begin(f, polling)) && id !in s.core.queue.live && !s.tasks[f].fut.done
    requires s.tasks[f].fut.registration.Some? || (s.core.generation == s.tasks[f].fut.generation && !s.core.permit)
    ensures var fut := s.tasks[f].fut;
            var locked := s.(tasks := s.tasks[f := Task(fut, AtLock(polling), false)]);
            Enabled(locked, Locked(f, id)) && CallSteps(s, f, id, polling) == Do(locked, Locked(f, id))
  {
    var fut := s.tasks[f].fut;
    if fut.registration.None? {
      assert s.tasks[f := Task(fut, AtPermit(polling), false)][f := Task(fut, AtLock(polling), false)]
             == s.tasks[f := Task(fut, AtLock(polling), false)];
    }
  }

  /** `t` is what one whole call by `f` makes of `s`. */
  ghost predicate IsWholeCall(s: State, t: State, f: nat, id: nat, polling: bool)
    requires f in s.tasks
  {
    var (core, fut, ready) := ReadyCall(s.core, s.tasks[f].fut, if polling then Some(f) else None, id);
    && t.core == core && t.tasks.Keys == s.tasks.Keys
    && t.tasks[f] == Task(if ready && polling then fut.(reserved := false) else fut, Idle, polling && !ready)
    && t.delivered == s.delivered + (if ready && polling && fut.reserved then 1 else 0)
  }

  lemma CallEndsEarly(s: State, f: nat, id: nat, polling: bool)
    requires Enabled(s, Begin(f, polling)) && id !in s.core.queue.live
    requires var fut := s.tasks[f].fut;
             fut.done || (fut.registration.None? && (s.core.generation != fut.generation || s.core.permit))
    ensures IsWholeCall(s, CallSteps(s, f, id, polling), f, id, polling)
  {
  }

  lemma CallEndsLocked(s: State, f: nat, id: nat, polling: bool)
    requires f in s.tasks && id !in s.core.queue.live && !s.tasks[f].fut.done
    requires s.tasks[f].fut.registration.Some? || (s.core.generation == s.tasks[f].fut.generation && !s.core.permit)
    ensures var locked := s.(tasks := s.tasks[f := Task(s.tasks[f].fut, AtLock(polling), false)]);
            IsWholeCall(s, DoLocked(locked, f, id), f, id, polling)
  {
  }

  /** They are one whole call. */
  lemma CallIsItsSteps(s: State, f: nat, id: nat, polling: bool)
    requires Enabled(s, Begin(f, polling)) && id !in s.core.queue.live
    ensures IsWholeCall(s, CallSteps(s, f, id, polling), f, id, polling)
  {
    var fut := s.tasks[f].fut;
    if !fut.done && (fut.registration.Some? || (s.core.generation == fut.generation && !s.core.permit)) {
      CallReachesLock(s, f, id, polling);
      CallEndsLocked(s, f, id, polling);
    } else {
      CallEndsEarly(s, f, id, polling);
    }
  }

  class Notify {
    var permit: bool
    var generation: nat
    const waiters: WaitQueue

    ghost predicate Valid()
      reads this, waiters
    {
      waiters.Valid()
    }

    ghost function View(): Core
      reads this, waiters
    {
      Core(permit, generation, waiters.View())
    }

    constructor ()
      ensures Valid() && fresh(waiters) && View() == Core(false, 0, EMPTY_VIEW)
    {
      permit, generation := false, 0;
      waiters := new WaitQueue();
    }

    /** Grants the oldest waiter or stores a permit; the caller wakes what is returned. */
    method GrantOne() returns (waker: Option<WakerId>)
      requires Valid()
      modifies this`permit, waiters
      ensures Valid() && (View(), waker) == GrantSection(old(View()))
      ensures old(waiters.fifo) == [] ==> permit && waker == None && waiters.View() == old(waiters.View())
      ensures old(waiters.fifo) != [] ==>
                && permit == old(permit) && waiters.fifo == old(waiters.fifo)[1..]
                && waker == old(waiters.View()).live[old(waiters.fifo)[0]].waker
    {
      var granted, registered := waiters.GrantOne();
      if granted {
        waker := registered;
      } else {
        permit := true;
        waker := None;
      }
    }

    method NotifyWaiters() returns (wakers: seq<WakerId>)
      requires Valid()
      modifies this`generation, waiters
      ensures Valid() && View() == BroadcastSection(old(View()))
      ensures wakers == WakersOf(old(View()).queue.fifo, old(View()).queue.live)
      ensures generation == old(generation) + 1 && permit == old(permit) && waiters.fifo == []
    {
      generation := generation + 1;
      ghost var rank;
      wakers, rank := waiters.GrantAll();
    }
  }

  class Notified {
    const notify: Notify
    const generation: nat
    var registration: Option<nat>
    var done: bool
    var reservedOne: bool

    ghost predicate Valid()
      reads this, notify, notify.waiters
    {
      && notify.Valid()
      && (done ==> registration.None?)
      && (reservedOne ==> done)
      && (registration.Some? ==> registration.value in notify.waiters.View().live)
    }

    ghost function View(): Fut
      reads this
    {
      Fut(generation, registration, done, reservedOne)
    }

    constructor (notify: Notify)
      requires notify.Valid()
      ensures Valid() && this.notify == notify && View() == Fut(notify.generation, None, false, false)
    {
      this.notify := notify;
      this.generation := notify.generation;
      registration, done, reservedOne := None, false, false;
    }

    /** The call that `enable` and `poll` share. */
    method ReadyOrRegister(waker: Option<WakerId>) returns (ready: bool)
      requires Valid()
      modifies this, notify`permit, notify.waiters
      ensures Valid()
      ensures old(registration).None? && registration.Some? ==> registration.value !in old(notify.View()).queue.live
      ensures (notify.View(), View(), ready)
              == ReadyCall(old(notify.View()), old(View()), waker, if registration.Some? then registration.value else 0)
    {
      if done { return true; }
      if registration.None? && notify.generation != generation {
        done := true;
        return true;
      }
      if registration.None? && notify.permit {
        notify.permit := false;
        done, reservedOne := true, true;
        return true;
      }
      var notification := None;
      if registration.Some? && notify.waiters.slots[registration.value].waiter.kind != Queued {
        notification := Some(notify.waiters.slots[registration.value].waiter.kind);
      } else if notify.generation != generation {
        notification := Some(All);
      } else if notify.permit {
        notify.permit := false;
        notification := Some(One);
      }
      if notification.Some? {
        var removed := notify.waiters.Remove(registration);
        registration, done, reservedOne := None, true, notification == Some(One);
        return true;
      }
      var id, replaced := notify.waiters.Register(registration, waker);
      registration := Some(id);
      ready := false;
    }

    /** `poll`: what was reserved is delivered by the return. */
    method Poll(waker: WakerId) returns (ready: bool)
      requires Valid()
      modifies this, notify`permit, notify.waiters
      ensures Valid()
      ensures var (core, fut, r) := ReadyCall(old(notify.View()), old(View()), Some(waker),
                                              if registration.Some? then registration.value else 0);
              ready == r && notify.View() == core && View() == (if r then fut.(reserved := false) else fut)
    {
      ready := ReadyOrRegister(Some(waker));
      if ready { reservedOne := false; }
    }

    /** `Drop`: releases the slot and hands an undelivered single notification on. */
    method Drop() returns (waker: Option<WakerId>)
      requires Valid()
      modifies this, notify`permit, notify.waiters
      ensures Valid() && registration == None
      ensures (notify.View(), waker) == DropSection(old(notify.View()), old(View()))
    {
      if reservedOne {
        waker := notify.GrantOne();
        return;
      }
      if registration.None? { return None; }
      var removed := notify.waiters.Remove(registration);
      registration := None;
      if removed.Some? && removed.value.kind == One {
        waker := notify.GrantOne();
      } else {
        waker := None;
      }
    }
  }
}
