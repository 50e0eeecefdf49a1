/**
 `Waiters` (src/sync.rs): the wait queue behind its lock, together with the futures that hold
 registrations in it and the wakes under way. `Semaphore` and `RwLock` both sit on this.
 */
module Waiters {
  import opened Common
  import opened WaitQueues

  /**
   `regs` maps each live future to its registration. `wakes` are wakers taken under the lock and
   not called yet; `scheduled` are futures whose task was woken and has not been polled since;
   `polling` are futures inside a poll that have not reached their registration yet.
   */
  datatype Waiting = Waiting(queue: QueueView, regs: map<nat, Option<nat>>, wakes: multiset<WakerId>,
                             scheduled: set<nat>, polling: set<nat>)

  const NOBODY := Waiting(EMPTY_VIEW, map[], multiset{}, {}, {})

  function Create(w: Waiting, f: nat): Waiting {
    w.(regs := w.regs[f := None], scheduled := w.scheduled + {f})
  }

  function StartPoll(w: Waiting, f: nat): Waiting {
    w.(scheduled := w.scheduled - {f}, polling := w.polling + {f})
  }

  /** The slot `f` is registered in, if it is. */
  function TokenOf(w: Waiting, f: nat): Option<nat> {
    if f in w.regs then w.regs[f] else None
  }

  /** `Waiters::register` from inside `f`'s poll; `id` is the slot a first registration gets. */
  function Register(w: Waiting, f: nat, id: nat): Waiting {
    var slot := if TokenOf(w, f).Some? then TokenOf(w, f).value else id;
    w.(queue := RegisterView(w.queue, slot, Some(f)), regs := w.regs[f := Some(slot)], polling := w.polling - {f})
  }

  /** The kind `Waiters::remove` reports for `f`. */
  function KindOf(w: Waiting, f: nat): Option<WakeKind> {
    var token := TokenOf(w, f);
    if token.Some? && token.value in w.queue.live then Some(w.queue.live[token.value].kind) else None
  }

  /** `Waiters::remove`, after which `f` is a future no more: it completed or was dropped. */
  function Leave(w: Waiting, f: nat): Waiting {
    w.(queue := if TokenOf(w, f).Some? then RemoveView(w.queue, TokenOf(w, f).value) else w.queue, regs := w.regs - {f},
       scheduled := w.scheduled - {f}, polling := w.polling - {f})
  }

  function WakeOne(w: Waiting): Waiting {
    if w.queue.fifo == [] then w
    else w.(queue := GrantOneView(w.queue), wakes := w.wakes + multiset(HeadWaker(w.queue)))
  }

  function WakeAll(w: Waiting): Waiting {
    w.(queue := GrantAllView(w.queue), wakes := w.wakes + multiset(WakersOf(w.queue.fifo, w.queue.live)))
  }

  /** A collected waker is called. */
  function Deliver(w: Waiting, waker: WakerId): Waiting {
    w.(wakes := w.wakes - multiset{waker}, scheduled := w.scheduled + {waker})
  }

  ghost predicate Owns(regs: map<nat, Option<nat>>, f: nat, id: nat) {
    f in regs && regs[f] == Some(id)
  }

  /** `f` is registered and nobody has granted it. */
  ghost predicate Waits(w: Waiting, f: nat) {
    KindOf(w, f) == Some(Queued)
  }

  /**
   Pending futures and live slots correspond, queued ones hold their waker, granted ones have been or
   will be woken.
   */
  ghost predicate Inv(w: Waiting) {
    && WellFormed(w.queue)
    && w.polling <= w.regs.Keys
    && (forall f, id :: Owns(w.regs, f, id) ==> id in w.queue.live)
    && (forall f, g, id :: Owns(w.regs, f, id) && Owns(w.regs, g, id) ==> f == g)
    && (forall id :: id in w.queue.live ==> exists f :: Owns(w.regs, f, id))
    && (forall f, id :: Owns(w.regs, f, id) ==> SlotOk(w, f, w.queue.live[id]))
  }

  ghost predicate SlotOk(w: Waiting, f: nat, r: Registration) {
    if r.kind == Queued then r.waker == Some(f)
    else f in w.wakes || f in w.scheduled || f in w.polling
  }

  lemma RegsFrame(w: Waiting, t: Waiting)
    requires Inv(w) && t.queue == w.queue && t.polling <= t.regs.Keys
    requires forall f, id :: Owns(t.regs, f, id) <==> Owns(w.regs, f, id)
    requires forall f, id :: Owns(w.regs, f, id) && w.queue.live[id].kind != Queued ==> SlotOk(t, f, w.queue.live[id])
    ensures Inv(t)
  {
    forall id | id in t.queue.live ensures exists f :: Owns(t.regs, f, id) {
      var f :| Owns(w.regs, f, id);
      assert Owns(t.regs, f, id);
    }
    forall f, id: nat | Owns(t.regs, f, id) ensures SlotOk(t, f, t.queue.live[id]) {
      assert Owns(w.regs, f, id);
    }
  }

  lemma QuietStepsKeep(w: Waiting, f: nat)
    requires Inv(w)
    ensures f !in w.regs ==> Inv(Create(w, f))
    ensures f in w.regs ==> Inv(StartPoll(w, f))
    ensures f in w.wakes ==> Inv(Deliver(w, f))
  {
    if f !in w.regs {
      forall g, id: nat ensures Owns(Create(w, f).regs, g, id) <==> Owns(w.regs, g, id) {}
      RegsFrame(w, Create(w, f));
    }
    if f in w.regs { RegsFrame(w, StartPoll(w, f)); }
    RegsFrame(w, Deliver(w, f));
  }

  lemma RegisterKeeps(w: Waiting, f: nat, id: nat)
    requires Inv(w) && f in w.regs && (w.regs[f].None? ==> id !in w.queue.live)
    ensures Inv(Register(w, f, id)) && Waits(Register(w, f, id), f)
    ensures forall g :: g != f ==> (Waits(Register(w, f, id), g) <==> Waits(w, g))
  {
    var t := Register(w, f, id);
    var slot := t.regs[f].value;
    if w.regs[f].Some? { assert Owns(w.regs, f, slot); }
    RegisterKeepsWellFormed(w.queue, slot, Some(f));
    forall g, i: nat | Owns(t.regs, g, i) && g != f ensures Owns(w.regs, g, i) && i != slot {
      assert Owns(w.regs, g, i);
    }
    forall g | g != f ensures Waits(t, g) <==> Waits(w, g) {
      if g in w.regs && w.regs[g].Some? { assert Owns(w.regs, g, w.regs[g].value) && Owns(t.regs, g, w.regs[g].value); }
    }
    assert Owns(t.regs, f, slot);
    forall i | i in t.queue.live ensures exists g :: Owns(t.regs, g, i) {
      if i != slot {
        var g :| Owns(w.regs, g, i);
        assert Owns(t.regs, g, i);
      }
    }
  }

  lemma LeaveKeepsPairs(w: Waiting, f: nat)
    requires Inv(w) && f in w.regs
    ensures var t := Leave(w, f);
            && (forall g, i: nat :: Owns(t.regs, g, i) <==> Owns(w.regs, g, i) && g != f)
            && (forall g, i: nat :: Owns(t.regs, g, i) ==> Some(i) != w.regs[f])
            && (forall i: nat :: i in t.queue.live ==> i in w.queue.live && Some(i) != w.regs[f])
  {
    var t := Leave(w, f);
    forall g, i: nat | Owns(t.regs, g, i) ensures Owns(w.regs, g, i) && g != f && Some(i) != w.regs[f] {
      assert Owns(w.regs, g, i);
      assert !Owns(w.regs, f, i);
    }
  }

  lemma LeaveStopsOne(w: Waiting, f: nat, g: nat)
    requires Inv(w) && f in w.regs
    ensures Waits(Leave(w, f), g) <==> g != f && Waits(w, g)
  {
    if g in w.regs && w.regs[g].Some? && g != f {
      assert Owns(w.regs, g, w.regs[g].value);
      if w.regs[f].Some? { assert Owns(w.regs, f, w.regs[f].value); }
    }
  }

  lemma LeaveKeeps(w: Waiting, f: nat)
    requires Inv(w) && f in w.regs
    ensures Inv(Leave(w, f))
    ensures forall g :: Waits(Leave(w, f), g) <==> g != f && Waits(w, g)
  {
    var t := Leave(w, f);
    if w.regs[f].Some? { RemoveKeepsWellFormed(w.queue, w.regs[f].value); }
    LeaveKeepsPairs(w, f);
    forall i | i in t.queue.live ensures exists g :: Owns(t.regs, g, i) {
      var g :| Owns(w.regs, g, i);
      assert Owns(t.regs, g, i);
    }
    forall g ensures Waits(t, g) <==> g != f && Waits(w, g) { LeaveStopsOne(w, f, g); }
  }

  lemma WakeOneKeeps(w: Waiting)
    requires Inv(w)
    ensures Inv(WakeOne(w))
    ensures forall g :: Waits(WakeOne(w), g) ==> Waits(w, g)
  {
    var t := WakeOne(w);
    if w.queue.fifo != [] {
      GrantHeadKeepsWellFormed(w.queue, One);
      assert t.queue.live.Keys == w.queue.live.Keys;
      var head := w.queue.fifo[0];
      var owner: nat :| Owns(w.regs, owner, head);
      assert SlotOk(w, owner, w.queue.live[head]);
      assert HeadWaker(w.queue) == [owner];
      forall g, i: nat | Owns(t.regs, g, i) ensures SlotOk(t, g, t.queue.live[i]) {
        assert Owns(w.regs, g, i);
      }
    }
  }

  lemma WakeAllKeeps(w: Waiting)
    requires Inv(w)
    ensures Inv(WakeAll(w))
    ensures forall g :: !Waits(WakeAll(w), g)
  {
    var t := WakeAll(w);
    GrantAllKeepsWellFormed(w.queue);
    assert t.queue.live.Keys == w.queue.live.Keys;
    forall g, i: nat | Owns(t.regs, g, i) ensures SlotOk(t, g, t.queue.live[i]) {
      assert Owns(w.regs, g, i);
      if w.queue.live[i].kind == Queued {
        WakersOfHas(w.queue.fifo, w.queue.live, i);
      }
    }
  }
}
