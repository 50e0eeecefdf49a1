/**
 The indexed waiter queue (src/sync.rs, `WaitQueue`): one vector that holds an intrusive
 doubly linked FIFO, a free list and the slots that were granted but not yet acknowledged.

 `QueueView` is the simple form: a sequence of waiting registrations and a map of all live
 ones. Every method of the class is proved to be the matching function on views.
 */
module WaitQueues {
  import opened Common

  /** A waker is an opaque identity; waking it is somebody else's step. */
  type WakerId = nat

  datatype WakeKind = Queued | One | All

  // ---------- The simple form ----------

  datatype Registration = Registration(kind: WakeKind, waker: Option<WakerId>)

  datatype QueueView = QueueView(fifo: seq<nat>, live: map<nat, Registration>)

  const EMPTY_VIEW := QueueView([], map[])

  /** The FIFO lists exactly the live registrations that nobody has granted, each once. */
  ghost predicate WellFormed(v: QueueView) {
    && Distinct(v.fifo)
    && (forall id :: id in v.fifo ==> id in v.live && v.live[id].kind == Queued)
    && (forall id :: id in v.live && v.live[id].kind == Queued ==> id in v.fifo)
  }

  /** The waker stored after registering `waker` over `previous`. */
  function Kept(previous: Option<WakerId>, waker: Option<WakerId>): Option<WakerId> {
    if waker.Some? then waker else previous
  }

  /** Register under the identity `id`: a fresh or granted one joins the tail, a queued one keeps its place. */
  function RegisterView(v: QueueView, id: nat, waker: Option<WakerId>): QueueView {
    var previous := if id in v.live then v.live[id].waker else None;
    var joins := id !in v.live || v.live[id].kind != Queued;
    QueueView(
      if joins then v.fifo + [id] else v.fifo,
      v.live[id := Registration(Queued, Kept(previous, waker))])
  }

  function RemoveView(v: QueueView, id: nat): QueueView {
    QueueView(Without(v.fifo, id), v.live - {id})
  }

  /** The head of the FIFO becomes granted, as `kind`, and gives up its waker. */
  function GrantHeadView(v: QueueView, kind: WakeKind): QueueView
    requires v.fifo != []
  {
    QueueView(v.fifo[1..], v.live[v.fifo[0] := Registration(kind, None)])
  }

  function GrantOneView(v: QueueView): QueueView {
    if v.fifo == [] then v else GrantHeadView(v, One)
  }

  /** Every queued registration becomes granted and gives up its waker. */
  function GrantAllView(v: QueueView): QueueView {
    QueueView([], map id | id in v.live ::
                      if v.live[id].kind == Queued then Registration(All, None) else v.live[id])
  }

  /** The wakers the FIFO holds, in order, skipping registrations without one. */
  function WakersOf(fifo: seq<nat>, live: map<nat, Registration>): seq<WakerId> {
    if fifo == [] then []
    else (if fifo[0] in live && live[fifo[0]].waker.Some? then [live[fifo[0]].waker.value] else [])
         + WakersOf(fifo[1..], live)
  }

  /** Granting the head over and over. */
  function DrainView(v: QueueView): QueueView
    decreases |v.fifo|
  {
    if v.fifo == [] then v else DrainView(GrantHeadView(v, All))
  }

  lemma {:induction false} DrainGrantsAll(v: QueueView)
    requires WellFormed(v)
    ensures DrainView(v) == GrantAllView(v)
    decreases |v.fifo|
  {
    if v.fifo == [] {
      assert GrantAllView(v).live == v.live;
    } else {
      GrantHeadKeepsWellFormed(v, All);
      DrainGrantsAll(GrantHeadView(v, All));
      assert GrantAllView(GrantHeadView(v, All)).live == GrantAllView(v).live;
    }
  }

  function HeadWaker(v: QueueView): seq<WakerId>
    requires v.fifo != []
  {
    if v.fifo[0] in v.live && v.live[v.fifo[0]].waker.Some? then [v.live[v.fifo[0]].waker.value] else []
  }

  /** The wakers that granting the head over and over collects. */
  function DrainWakers(v: QueueView): seq<WakerId>
    decreases |v.fifo|
  {
    if v.fifo == [] then [] else HeadWaker(v) + DrainWakers(GrantHeadView(v, All))
  }

  lemma {:induction false} WakersOfFrame(fifo: seq<nat>, live: map<nat, Registration>, id: nat, r: Registration)
    requires id !in fifo
    ensures WakersOf(fifo, live[id := r]) == WakersOf(fifo, live)
  {
    if fifo != [] { WakersOfFrame(fifo[1..], live, id, r); }
  }

  lemma {:induction false} DrainCollectsAll(v: QueueView)
    requires Distinct(v.fifo)
    ensures DrainWakers(v) == WakersOf(v.fifo, v.live)
    decreases |v.fifo|
  {
    if v.fifo != [] {
      var rest := GrantHeadView(v, All);
      assert v.fifo == [v.fifo[0]] + rest.fifo;
      DrainCollectsAll(rest);
      WakersOfFrame(rest.fifo, v.live, v.fifo[0], Registration(All, None));
    }
  }

  /**
   `rank[i]` counts the registrations before position `i` of the FIFO that hold a waker; the waker
   held at `i` is at that place of `wakers`, which holds no others.
   */
  ghost predicate InFifoOrder(wakers: seq<WakerId>, fifo: seq<nat>, live: map<nat, Registration>, rank: seq<nat>) {
    && |rank| == |fifo| + 1 && rank[0] == 0 && rank[|fifo|] == |wakers|
    && forall i :: 0 <= i < |fifo| ==> RankedAt(wakers, fifo, live, rank, i)
  }

  ghost predicate RankedAt(wakers: seq<WakerId>, fifo: seq<nat>, live: map<nat, Registration>, rank: seq<nat>, i: nat)
    requires i + 1 < |rank| && i < |fifo|
  {
    if fifo[i] in live && live[fifo[i]].waker.Some? then
      rank[i + 1] == rank[i] + 1 && rank[i] < |wakers| && live[fifo[i]].waker.value == wakers[rank[i]]
    else rank[i + 1] == rank[i]
  }

  /** What one more registration at the tail adds. */
  function OwnWaker(live: map<nat, Registration>, id: nat): seq<WakerId> {
    if id in live && live[id].waker.Some? then [live[id].waker.value] else []
  }

  lemma {:induction false} WakersOfHead(fifo: seq<nat>, live: map<nat, Registration>)
    requires fifo != []
    ensures WakersOf(fifo, live) == OwnWaker(live, fifo[0]) + WakersOf(fifo[1..], live)
  {
  }

  lemma {:induction false} WakersOfAppend(fifo: seq<nat>, live: map<nat, Registration>, id: nat)
    ensures WakersOf(fifo + [id], live) == WakersOf(fifo, live) + OwnWaker(live, id)
  {
    var longer := fifo + [id];
    WakersOfHead(longer, live);
    if fifo == [] {
      assert longer[1..] == [];
    } else {
      WakersOfHead(fifo, live);
      WakersOfAppend(fifo[1..], live, id);
      assert longer[1..] == fifo[1..] + [id];
      Regroup(OwnWaker(live, fifo[0]), WakersOf(fifo[1..], live), OwnWaker(live, id));
    }
  }

  lemma RankAtTail(wakers: seq<WakerId>, fifo: seq<nat>, live: map<nat, Registration>, rank: seq<nat>, id: nat)
    requires InFifoOrder(wakers, fifo, live, rank)
    ensures var all := wakers + OwnWaker(live, id);
            InFifoOrder(all, fifo + [id], live, rank + [|all|])
  {
    var all, longer := wakers + OwnWaker(live, id), fifo + [id];
    forall i | 0 <= i < |longer| ensures RankedAt(all, longer, live, rank + [|all|], i) {
      if i < |fifo| { assert RankedAt(wakers, fifo, live, rank, i); }
    }
  }

  lemma {:induction false} WakersInOrder(fifo: seq<nat>, live: map<nat, Registration>) returns (rank: seq<nat>)
    ensures InFifoOrder(WakersOf(fifo, live), fifo, live, rank)
  {
    if fifo == [] { return [0]; }
    var front, id := fifo[..|fifo| - 1], fifo[|fifo| - 1];
    rank := WakersInOrder(front, live);
    RankAtTail(WakersOf(front, live), front, live, rank, id);
    WakersOfAppend(front, live, id);
    assert fifo == front + [id];
    rank := rank + [|WakersOf(fifo, live)|];
  }

  /** A queued registration's waker is among those a broadcast collects. */
  lemma {:induction false} WakersOfHas(fifo: seq<nat>, live: map<nat, Registration>, id: nat)
    requires id in fifo && id in live && live[id].waker.Some?
    ensures live[id].waker.value in WakersOf(fifo, live)
  {
    if fifo[0] != id { WakersOfHas(fifo[1..], live, id); }
  }

  lemma RegisterKeepsWellFormed(v: QueueView, id: nat, waker: Option<WakerId>)
    requires WellFormed(v)
    ensures WellFormed(RegisterView(v, id, waker))
  {
  }

  lemma RemoveKeepsWellFormed(v: QueueView, id: nat)
    requires WellFormed(v)
    ensures WellFormed(RemoveView(v, id))
  {
    WithoutDistinct(v.fifo, id);
  }

  lemma GrantHeadKeepsWellFormed(v: QueueView, kind: WakeKind)
    requires WellFormed(v) && v.fifo != [] && kind != Queued
    ensures WellFormed(GrantHeadView(v, kind))
  {
    assert v.fifo == [v.fifo[0]] + v.fifo[1..];
  }

  lemma GrantAllKeepsWellFormed(v: QueueView)
    requires WellFormed(v)
    ensures WellFormed(GrantAllView(v))
  {
  }

  lemma WithoutShifts(s: seq<nat>, k: nat, m: nat)
    requires Distinct(s) && k < |s| && m < |s| && m != k
    ensures |Without(s, s[k])| == |s| - 1 && Without(s, s[k])[if m < k then m else m - 1] == s[m]
  {
    WithoutAt(s, k);
  }

  /** Cancellation, even from the middle, leaves everyone else's relative order alone. */
  lemma RemoveKeepsOrder(s: seq<nat>, x: nat, i: nat, j: nat) returns (i': nat, j': nat)
    requires Distinct(s) && i < j < |s| && s[i] != x && s[j] != x
    ensures i' < j' < |Without(s, x)| && Without(s, x)[i'] == s[i] && Without(s, x)[j'] == s[j]
  {
    i', j' := i, j;
    if x in s {
      var k :| 0 <= k < |s| && s[k] == x;
      WithoutShifts(s, k, i);
      WithoutShifts(s, k, j);
      i' := if i < k then i else i - 1;
      j' := if j < k then j else j - 1;
    }
  }

  /** The registrations granted one by one and not acknowledged yet. */
  function Ones(live: map<nat, Registration>): set<nat> {
    set id | id in live && live[id].kind == One
  }

  lemma OnesAfterSet(live: map<nat, Registration>, id: nat, r: Registration)
    ensures |Ones(live[id := r])| == |Ones(live) - {id}| + (if r.kind == One then 1 else 0)
  {
    if r.kind == One {
      assert Ones(live[id := r]) == (Ones(live) - {id}) + {id};
    } else {
      assert Ones(live[id := r]) == Ones(live) - {id};
    }
  }

  lemma OnesAfterRemove(live: map<nat, Registration>, id: nat)
    ensures Ones(live - {id}) == Ones(live) - {id}
  {
  }

  lemma OnesAfterGrantAll(q: QueueView)
    ensures Ones(GrantAllView(q).live) == Ones(q.live)
  {
  }

  // ---------- The vector ----------

  datatype Waiter = Waiter(previous: Option<nat>, next: Option<nat>, kind: WakeKind, waker: Option<WakerId>)

  datatype WaiterSlot = Live(waiter: Waiter) | Free(nextFree: Option<nat>)

  /** The element at `i`, or nothing when `i` is off either end. */
  function At(s: seq<nat>, i: int): Option<nat> {
    if 0 <= i < |s| then Some(s[i]) else None
  }

  /** The slot of the `i`th queued registration is live, queued, and points at its neighbours. */
  ghost predicate LinkAt(slots: seq<WaiterSlot>, fifo: seq<nat>, i: nat) {
    && i < |fifo|
    && fifo[i] < |slots|
    && slots[fifo[i]].Live?
    && slots[fifo[i]].waiter.kind == Queued
    && slots[fifo[i]].waiter.previous == At(fifo, i - 1)
    && slots[fifo[i]].waiter.next == At(fifo, i + 1)
  }

  /** The links spell exactly the sequence `fifo`, in both directions. */
  ghost predicate Linked(slots: seq<WaiterSlot>, fifo: seq<nat>, head: Option<nat>, tail: Option<nat>) {
    && Distinct(fifo)
    && head == At(fifo, 0)
    && tail == At(fifo, |fifo| - 1)
    && forall i :: 0 <= i < |fifo| ==> LinkAt(slots, fifo, i)
  }

  /** The slot of the `i`th free entry names the next one. */
  ghost predicate FreeAt(slots: seq<WaiterSlot>, chain: seq<nat>, i: nat) {
    i < |chain| && chain[i] < |slots| && slots[chain[i]] == Free(At(chain, i + 1))
  }

  /** The free list visits exactly the free slots, each once. */
  ghost predicate FreeChain(slots: seq<WaiterSlot>, chain: seq<nat>, free: Option<nat>) {
    && Distinct(chain)
    && free == At(chain, 0)
    && (forall i :: 0 <= i < |chain| ==> FreeAt(slots, chain, i))
    && (forall id :: 0 <= id < |slots| && slots[id].Free? ==> id in chain)
  }

  function LiveOf(slots: seq<WaiterSlot>): map<nat, Registration> {
    map id | 0 <= id < |slots| && slots[id].Live? :: Registration(slots[id].waiter.kind, slots[id].waiter.waker)
  }

  lemma LiveOfSet(slots: seq<WaiterSlot>, id: nat, w: Waiter)
    requires id < |slots|
    ensures LiveOf(slots[id := Live(w)]) == LiveOf(slots)[id := Registration(w.kind, w.waker)]
  {
  }

  lemma LiveOfFree(slots: seq<WaiterSlot>, id: nat, next: Option<nat>)
    requires id < |slots|
    ensures LiveOf(slots[id := Free(next)]) == LiveOf(slots) - {id}
  {
  }

  lemma LiveOfAppend(slots: seq<WaiterSlot>, w: Waiter)
    ensures LiveOf(slots + [Live(w)]) == LiveOf(slots)[|slots| := Registration(w.kind, w.waker)]
  {
    var more := slots + [Live(w)];
    assert forall id :: 0 <= id < |slots| ==> more[id] == slots[id];
  }

  /** Writing a live slot leaves the free list alone. */
  lemma FreeChainFrame(slots: seq<WaiterSlot>, chain: seq<nat>, free: Option<nat>, after: seq<WaiterSlot>)
    requires FreeChain(slots, chain, free) && |after| == |slots|
    requires forall id :: 0 <= id < |slots| ==> if slots[id].Free? then after[id] == slots[id] else after[id].Live?
    ensures FreeChain(after, chain, free)
  {
    forall i | 0 <= i < |chain| ensures FreeAt(after, chain, i) {
      assert FreeAt(slots, chain, i);
    }
  }

  /** Writing slots that are not in the FIFO leaves the links alone. */
  lemma LinkedFrame(slots: seq<WaiterSlot>, fifo: seq<nat>, head: Option<nat>, tail: Option<nat>,
      after: seq<WaiterSlot>)
    requires Linked(slots, fifo, head, tail) && |slots| <= |after|
    requires forall id :: id in fifo && id < |slots| ==> after[id] == slots[id]
    ensures Linked(after, fifo, head, tail)
  {
    forall i | 0 <= i < |fifo| ensures LinkAt(after, fifo, i) {
      assert LinkAt(slots, fifo, i);
    }
  }

  /** What `enqueue` writes: the old tail points at `id`, `id` points back, and nothing follows it. */
  function Appended(slots: seq<WaiterSlot>, tail: Option<nat>, id: nat): seq<WaiterSlot>
    requires id < |slots| && slots[id].Live? && tail != Some(id)
    requires tail.Some? ==> tail.value < |slots| && slots[tail.value].Live?
  {
    var s := slots[id := Live(slots[id].waiter.(previous := tail, next := None, kind := Queued))];
    if tail.Some? then s[tail.value := Live(s[tail.value].waiter.(next := Some(id)))] else s
  }

  lemma AppendedIsLinked(slots: seq<WaiterSlot>, fifo: seq<nat>, head: Option<nat>, tail: Option<nat>, id: nat)
    requires Linked(slots, fifo, head, tail) && id < |slots| && slots[id].Live? && id !in fifo
    ensures tail.Some? ==> tail.value in fifo && tail.value < |slots| && slots[tail.value].Live?
    ensures Linked(Appended(slots, tail, id), fifo + [id], if tail.Some? then head else Some(id), Some(id))
    ensures LiveOf(Appended(slots, tail, id)) == LiveOf(slots)[id := Registration(Queued, slots[id].waiter.waker)]
  {
    if tail.Some? { assert LinkAt(slots, fifo, |fifo| - 1); }
    var after, longer := Appended(slots, tail, id), fifo + [id];
    forall i | 0 <= i < |longer| ensures LinkAt(after, longer, i) {
      if i < |fifo| {
        assert LinkAt(slots, fifo, i);
        assert longer[i] == fifo[i];
      }
    }
  }

  /** What `unlink` writes: the neighbours point at each other and `id` at nobody. */
  function Spliced(slots: seq<WaiterSlot>, id: nat): seq<WaiterSlot>
    requires id < |slots| && slots[id].Live?
    requires var p := slots[id].waiter.previous; p.Some? ==> p.value < |slots| && slots[p.value].Live?
    requires var n := slots[id].waiter.next; n.Some? ==> n.value < |slots| && slots[n.value].Live?
  {
    var p, n := slots[id].waiter.previous, slots[id].waiter.next;
    var s1 := if p.Some? then slots[p.value := Live(slots[p.value].waiter.(next := n))] else slots;
    var s2 := if n.Some? then s1[n.value := Live(s1[n.value].waiter.(previous := p))] else s1;
    s2[id := Live(s2[id].waiter.(previous := None, next := None))]
  }

  lemma NeighboursAreLive(slots: seq<WaiterSlot>, fifo: seq<nat>, head: Option<nat>, tail: Option<nat>, k: nat)
    requires Linked(slots, fifo, head, tail) && k < |fifo|
    ensures fifo[k] < |slots| && slots[fifo[k]].Live?
    ensures var w := slots[fifo[k]].waiter;
            && w.previous == At(fifo, k - 1) && w.next == At(fifo, k + 1)
            && (w.previous.Some? ==> w.previous.value < |slots| && slots[w.previous.value].Live?)
            && (w.next.Some? ==> w.next.value < |slots| && slots[w.next.value].Live?)
  {
    assert LinkAt(slots, fifo, k);
    if k > 0 { assert LinkAt(slots, fifo, k - 1); }
    if k + 1 < |fifo| { assert LinkAt(slots, fifo, k + 1); }
  }

  lemma SplicedIsLinked(slots: seq<WaiterSlot>, fifo: seq<nat>, head: Option<nat>, tail: Option<nat>, k: nat)
    requires Linked(slots, fifo, head, tail) && k < |fifo|
    requires fifo[k] < |slots| && slots[fifo[k]].Live?
    requires var p := slots[fifo[k]].waiter.previous; p.Some? ==> p.value < |slots| && slots[p.value].Live?
    requires var n := slots[fifo[k]].waiter.next; n.Some? ==> n.value < |slots| && slots[n.value].Live?
    ensures var w := slots[fifo[k]].waiter;
            Linked(Spliced(slots, fifo[k]), fifo[..k] + fifo[k + 1..],
                   if w.previous.Some? then head else w.next, if w.next.Some? then tail else w.previous)
    ensures fifo[k] !in fifo[..k] + fifo[k + 1..]
    ensures LiveOf(Spliced(slots, fifo[k])) == LiveOf(slots)
  {
    NeighboursAreLive(slots, fifo, head, tail, k);
    var rest, after := fifo[..k] + fifo[k + 1..], Spliced(slots, fifo[k]);
    assert forall i :: 0 <= i < |rest| ==> rest[i] == fifo[if i < k then i else i + 1];
    forall i | 0 <= i < |rest| ensures LinkAt(after, rest, i) {
      var j := if i < k then i else i + 1;
      assert LinkAt(slots, fifo, j);
      assert rest[i] == fifo[j] != fifo[k];
      assert i > 0 ==> rest[i - 1] == fifo[if i - 1 < k then i - 1 else i];
      assert i + 1 < |rest| ==> rest[i + 1] == fifo[if i + 1 < k then i + 1 else i + 2];
    }
  }

  /** Taking the first free entry, or returning a slot to the front of the list. */
  lemma FreeChainPop(slots: seq<WaiterSlot>, chain: seq<nat>, free: Option<nat>, w: Waiter)
    requires FreeChain(slots, chain, free) && free.Some?
    ensures free.value < |slots| && slots[free.value].Free?
    ensures FreeChain(slots[free.value := Live(w)], chain[1..], slots[free.value].nextFree)
    ensures forall id :: id in chain[1..] ==> id in chain
  {
    assert FreeAt(slots, chain, 0);
    var after := slots[free.value := Live(w)];
    assert chain == [free.value] + chain[1..];
    forall i | 0 <= i < |chain[1..]| ensures FreeAt(after, chain[1..], i) {
      assert FreeAt(slots, chain, i + 1);
    }
  }

  lemma FreeChainPush(slots: seq<WaiterSlot>, chain: seq<nat>, free: Option<nat>, id: nat)
    requires FreeChain(slots, chain, free) && id < |slots| && slots[id].Live?
    ensures FreeChain(slots[id := Free(free)], [id] + chain, Some(id))
  {
    var after := slots[id := Free(free)];
    forall i | 0 <= i < |chain| ensures chain[i] != id { assert FreeAt(slots, chain, i); }
    forall i | 0 <= i < |chain| + 1 ensures FreeAt(after, [id] + chain, i) {
      if i > 0 { assert FreeAt(slots, chain, i - 1); }
    }
  }

  class WaitQueue {
    var slots: seq<WaiterSlot>
    var free: Option<nat>
    var head: Option<nat>
    var tail: Option<nat>
    ghost var fifo: seq<nat>
    ghost var chain: seq<nat>

    /** Everything but "who is queued is linked": what holds while one id is between lists. */
    ghost predicate Shaped()
      reads this
    {
      Linked(slots, fifo, head, tail) && FreeChain(slots, chain, free)
    }

    /** Queued, granted and free slots partition the vector; both lists are complete. */
    ghost predicate Valid()
      reads this
    {
      Shaped() && WellFormed(View())
    }

    ghost function View(): QueueView
      reads this
    {
      QueueView(fifo, LiveOf(slots))
    }

    constructor ()
      ensures Valid() && View() == EMPTY_VIEW
    {
      slots, free, head, tail := [], None, None, None;
      fifo, chain := [], [];
    }

    method Enqueue(id: nat)
      requires Shaped() && id < |slots| && slots[id].Live? && id !in fifo
      modifies this
      ensures Shaped() && fifo == old(fifo) + [id] && |slots| == |old(slots)|
      ensures LiveOf(slots) == LiveOf(old(slots))[id := Registration(Queued, old(slots)[id].waiter.waker)]
    {
      AppendedIsLinked(slots, fifo, head, tail, id);
      FreeChainFrame(slots, chain, free, Appended(slots, tail, id));
      var last := tail;
      slots := slots[id := Live(slots[id].waiter.(previous := last, next := None, kind := Queued))];
      if last.Some? {
        slots := slots[last.value := Live(slots[last.value].waiter.(next := Some(id)))];
      } else {
        head := Some(id);
      }
      tail := Some(id);
      fifo := fifo + [id];
      assert slots == Appended(old(slots), last, id);
    }

    /** Takes the element at position `k` of the FIFO out of both directions of the list. */
    method Unlink(id: nat, ghost k: nat)
      requires Shaped() && k < |fifo| && fifo[k] == id
      modifies this
      ensures Shaped() && fifo == old(fifo)[..k] + old(fifo)[k + 1..]
      ensures id !in fifo && |slots| == |old(slots)| && id < |slots| && slots[id].Live? && old(slots)[id].Live?
      ensures slots[id].waiter == old(slots)[id].waiter.(previous := None, next := None)
      ensures LiveOf(slots) == LiveOf(old(slots))
    {
      NeighboursAreLive(slots, fifo, head, tail, k);
      SplicedIsLinked(slots, fifo, head, tail, k);
      FreeChainFrame(slots, chain, free, Spliced(slots, id));
      var previous, next := slots[id].waiter.previous, slots[id].waiter.next;
      if previous.Some? {
        slots := slots[previous.value := Live(slots[previous.value].waiter.(next := next))];
      } else {
        head := next;
      }
      if next.Some? {
        slots := slots[next.value := Live(slots[next.value].waiter.(previous := previous))];
      } else {
        tail := previous;
      }
      slots := slots[id := Live(slots[id].waiter.(previous := None, next := None))];
      fifo := fifo[..k] + fifo[k + 1..];
      assert slots == Spliced(old(slots), id);
    }

    /** A live slot for a first registration: the head of the free list, else a new one at the end. */
    method Allocate(waiter: Waiter) returns (id: nat)
      requires Shaped()
      modifies this
      ensures Shaped() && fifo == old(fifo)
      ensures id !in LiveOf(old(slots)) && id !in fifo && id < |slots| && slots[id] == Live(waiter)
      ensures LiveOf(slots) == LiveOf(old(slots))[id := Registration(waiter.kind, waiter.waker)]
    {
      FifoIsLive();
      if free.Some? {
        id := free.value;
        FreeChainPop(slots, chain, free, waiter);
        LiveOfSet(slots, id, waiter);
        LinkedFrame(slots, fifo, head, tail, slots[id := Live(waiter)]);
        free := slots[id].nextFree;
        slots := slots[id := Live(waiter)];
        chain := chain[1..];
      } else {
        LiveOfAppend(slots, waiter);
        LinkedFrame(slots, fifo, head, tail, slots + [Live(waiter)]);
        slots := slots + [Live(waiter)];
        id := |slots| - 1;
      }
    }

    lemma FifoIsLive()
      requires Shaped()
      ensures forall id :: id in fifo ==> id < |slots| && slots[id].Live? && slots[id].waiter.kind == Queued
    {
      forall i | 0 <= i < |fifo|
        ensures fifo[i] < |slots| && slots[fifo[i]].Live? && slots[fifo[i]].waiter.kind == Queued
      {
        assert LinkAt(slots, fifo, i);
      }
    }

    /** Puts a fresh or granted registration at the tail; a queued one stays where it is. */
    method Place(token: Option<nat>) returns (id: nat)
      requires Valid()
      requires token.Some? ==> token.value in View().live
      modifies this
      ensures Shaped() && id < |slots| && slots[id].Live?
      ensures if token.Some? then id == token.value else id !in old(View()).live
      ensures View() == RegisterView(old(View()), id, None)
      ensures fifo == if token.Some? && old(View()).live[token.value].kind == Queued then old(fifo)
                      else old(fifo) + [id]
    {
      FifoIsLive();
      if token.Some? {
        id := token.value;
        if slots[id].waiter.kind != Queued {
          Enqueue(id);
        }
      } else {
        id := Allocate(Waiter(None, None, Queued, None));
        Enqueue(id);
      }
      assert View().live == RegisterView(old(View()), id, None).live;
      assert id in LiveOf(slots);
    }

    /** Registers or re-registers, returning the slot and the waker that was replaced. */
    method Register(token: Option<nat>, waker: Option<WakerId>) returns (id: nat, replaced: Option<WakerId>)
      requires Valid()
      requires token.Some? ==> token.value in View().live
      modifies this
      ensures Valid()
      ensures if token.Some? then id == token.value else id !in old(View()).live
      ensures View() == RegisterView(old(View()), id, waker)
      ensures fifo == if token.Some? && old(View()).live[token.value].kind == Queued then old(fifo)
                      else old(fifo) + [id]
      ensures var previous := if token.Some? then old(View()).live[id].waker else None;
              View().live == old(View()).live[id := Registration(Queued, if waker.Some? then waker else previous)]
      ensures replaced == (if token.None? || waker == None || old(View()).live[id].waker == waker then None
                           else old(View()).live[id].waker)
    {
      id := Place(token);
      replaced := None;
      assert View().live[id].waker == slots[id].waiter.waker;
      if waker.Some? && slots[id].waiter.waker != waker {
        replaced := slots[id].waiter.waker;
        SetWaker(id, waker);
      }
      RegisterKeepsWellFormed(old(View()), id, waker);
      assert View() == RegisterView(old(View()), id, waker);
    }

    /** Replaces the waker of a live slot. */
    method SetWaker(id: nat, waker: Option<WakerId>)
      requires Shaped() && id < |slots| && slots[id].Live?
      modifies this`slots
      ensures Shaped() && |slots| == |old(slots)|
      ensures LiveOf(slots) == LiveOf(old(slots))[id := Registration(old(slots)[id].waiter.kind, waker)]
    {
      var w := slots[id].waiter.(waker := waker);
      LiveOfSet(slots, id, w);
      var after := slots[id := Live(w)];
      FreeChainFrame(slots, chain, free, after);
      forall i | 0 <= i < |fifo| ensures LinkAt(after, fifo, i) {
        assert LinkAt(slots, fifo, i);
      }
      slots := after;
    }

    /** Marks an unlinked slot granted and takes its waker. */
    method Mark(id: nat, kind: WakeKind) returns (waker: Option<WakerId>)
      requires Shaped() && id < |slots| && slots[id].Live? && id !in fifo
      modifies this`slots
      ensures Shaped()
      ensures LiveOf(slots) == LiveOf(old(slots))[id := Registration(kind, None)]
      ensures waker == old(slots)[id].waiter.waker
    {
      waker := slots[id].waiter.waker;
      var w := slots[id].waiter.(kind := kind, waker := None);
      LiveOfSet(slots, id, w);
      FreeChainFrame(slots, chain, free, slots[id := Live(w)]);
      LinkedFrame(slots, fifo, head, tail, slots[id := Live(w)]);
      slots := slots[id := Live(w)];
    }

    /** Puts an unlinked slot at the front of the free list. */
    method Release(id: nat)
      requires Shaped() && id < |slots| && slots[id].Live? && id !in fifo
      modifies this`slots, this`free, this`chain
      ensures Shaped()
      ensures LiveOf(slots) == LiveOf(old(slots)) - {id}
    {
      FreeChainPush(slots, chain, free, id);
      LinkedFrame(slots, fifo, head, tail, slots[id := Free(free)]);
      LiveOfFree(slots, id, free);
      slots := slots[id := Free(free)];
      free := Some(id);
      chain := [id] + chain;
    }

    /** Releases the registration, handing back what it was. */
    method Remove(token: Option<nat>) returns (removed: Option<Registration>)
      requires Valid()
      requires token.Some? ==> token.value in View().live
      modifies this
      ensures Valid()
      ensures token.None? ==> removed == None && View() == old(View())
      ensures token.Some? ==> removed == Some(old(View()).live[token.value])
                              && View() == RemoveView(old(View()), token.value)
                              && View().live == old(View()).live - {token.value}
      ensures token.Some? ==> forall id :: id in fifo <==> id in old(fifo) && id != token.value
    {
      if token.None? { return None; }
      var id := token.value;
      RemoveKeepsWellFormed(View(), id);
      if slots[id].waiter.kind == Queued {
        ghost var k :| 0 <= k < |fifo| && fifo[k] == id;
        WithoutAt(fifo, k);
        Unlink(id, k);
      } else {
        assert View().live[id].kind != Queued;
      }
      assert View() == QueueView(Without(old(fifo), id), old(View()).live);
      assert slots[id].waiter.kind == View().live[id].kind && slots[id].waiter.waker == View().live[id].waker;
      removed := Some(Registration(slots[id].waiter.kind, slots[id].waiter.waker));
      Release(id);
    }

    /** Grants the head, if any. `waker` is what it had registered, which may be nothing yet. */
    method GrantOne() returns (granted: bool, waker: Option<WakerId>)
      requires Valid()
      modifies this
      ensures Valid()
      ensures granted == (old(fifo) != [])
      ensures old(fifo) != [] ==> old(fifo)[0] in old(View()).live
      ensures View() == GrantOneView(old(View()))
      ensures granted ==> fifo == old(fifo)[1..]
                          && View().live == old(View()).live[old(fifo)[0] := Registration(One, None)]
      ensures !granted ==> View() == old(View())
      ensures waker == if granted then old(View()).live[old(fifo)[0]].waker else None
    {
      FifoIsLive();
      if head.None? { return false, None; }
      granted := true;
      waker := Grant(head.value, One);
    }

    /** Unlinks the head and marks it granted with `kind`. */
    method Grant(id: nat, kind: WakeKind) returns (waker: Option<WakerId>)
      requires Valid() && fifo != [] && fifo[0] == id && kind != Queued
      modifies this
      ensures Valid() && id in old(View()).live
      ensures View() == GrantHeadView(old(View()), kind)
      ensures fifo == old(fifo)[1..] && View().live == old(View()).live[id := Registration(kind, None)]
      ensures waker == old(View()).live[id].waker
    {
      GrantHeadKeepsWellFormed(View(), kind);
      Unlink(id, 0);
      assert fifo == old(fifo)[1..];
      assert View().live[id].waker == slots[id].waiter.waker;
      waker := Mark(id, kind);
    }

    /** Grants everyone queued and hands back their wakers in FIFO order. */
    method GrantAll() returns (wakers: seq<WakerId>, ghost rank: seq<nat>)
      requires Valid()
      modifies this
      ensures Valid()
      ensures View() == GrantAllView(old(View()))
      ensures wakers == WakersOf(old(fifo), old(View()).live)
      ensures fifo == [] && View().live.Keys == old(View()).live.Keys
      ensures forall id :: id in View().live ==>
                View().live[id] == if id in old(fifo) then Registration(All, None) else old(View()).live[id]
      ensures InFifoOrder(wakers, old(fifo), old(View()).live, rank)
    {
      wakers := [];
      ghost var start := View();
      ghost var end, all := DrainView(start), DrainWakers(start);
      while head.Some?
        invariant Valid() && DrainView(View()) == end && wakers + DrainWakers(View()) == all
        decreases |fifo|
      {
        ghost var before, taken := View(), wakers;
        var waker := Grant(head.value, All);
        if waker.Some? {
          wakers := wakers + [waker.value];
        }
        assert wakers == taken + HeadWaker(before);
        Regroup(taken, HeadWaker(before), DrainWakers(View()));
      }
      assert View().fifo == [];
      DrainGrantsAll(start);
      DrainCollectsAll(start);
      rank := WakersInOrder(start.fifo, start.live);
    }
  }
}
