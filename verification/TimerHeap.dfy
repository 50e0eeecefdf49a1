/**
 The timer registry (src/time.rs): an indexed binary heap of deadlines whose entries know their
 own position through the slot they share with a sleeping future, so that any of them can be
 removed in place.
 */
module TimerHeaps {
  import opened Common

  type WakerId = nat

  const NOT_QUEUED: nat := 0xFFFF_FFFF_FFFF_FFFF

  /** What a pending timer and its future share. */
  class Slot {
    var fired: bool
    var waker: Option<WakerId>
    var index: nat

    constructor (waker: Option<WakerId>)
      ensures !fired && this.waker == waker && index == NOT_QUEUED
    {
      fired, this.waker, index := false, waker, NOT_QUEUED;
    }
  }

  /** `order` is the registration number that breaks ties. */
  datatype Entry = Entry(deadline: nat, order: nat, slot: Slot)

  /** `a` fires before `b`; the code's reversed comparison reads `a > b`. */
  predicate Before(a: Entry, b: Entry) {
    a.deadline < b.deadline || (a.deadline == b.deadline && a.order < b.order)
  }

  predicate NotAfter(a: Entry, b: Entry) {
    !Before(b, a)
  }

  function Parent(i: nat): nat
    requires i > 0
  {
    (i - 1) / 2
  }

  /** The entry at `i` does not fire before its parent. */
  ghost predicate OrderedAt(es: seq<Entry>, i: nat) {
    0 < i < |es| ==> NotAfter(es[Parent(i)], es[i])
  }

  ghost predicate Ordered(es: seq<Entry>) {
    forall i: nat :: OrderedAt(es, i)
  }

  /** The children of `i` do not fire before the parent of `i`. */
  ghost predicate BridgedAt(es: seq<Entry>, i: nat, j: nat) {
    0 < i && 0 < j < |es| && Parent(j) == i && i < |es| ==> NotAfter(es[Parent(i)], es[j])
  }

  ghost predicate OrderedExceptAbove(es: seq<Entry>, i: nat) {
    && (forall j: nat :: j != i ==> OrderedAt(es, j))
    && (forall j: nat :: BridgedAt(es, i, j))
  }

  ghost predicate OrderedExceptBelow(es: seq<Entry>, i: nat) {
    && (forall j: nat :: 0 < j && Parent(j) != i ==> OrderedAt(es, j))
    && (forall j: nat :: BridgedAt(es, i, j))
  }

  function Swapped(es: seq<Entry>, a: nat, b: nat): seq<Entry>
    requires a < |es| && b < |es|
  {
    es[a := es[b]][b := es[a]]
  }

  lemma SwappedMultiset(es: seq<Entry>, a: nat, b: nat)
    requires a < |es| && b < |es|
    ensures multiset(Swapped(es, a, b)) == multiset(es)
  {
  }

  /** One round of sifting up moves the only disorder to the parent. */
  lemma SiftUpStep(es: seq<Entry>, i: nat)
    requires 0 < i < |es| && OrderedExceptAbove(es, i) && Before(es[i], es[Parent(i)])
    ensures OrderedExceptAbove(Swapped(es, i, Parent(i)), Parent(i))
  {
    var p := Parent(i);
    var after := Swapped(es, i, p);
    forall j: nat | j != p ensures OrderedAt(after, j) {
      assert j != i ==> OrderedAt(es, j);
      assert BridgedAt(es, i, j);
    }
    forall j: nat ensures BridgedAt(after, p, j) {
      assert OrderedAt(es, p);
      assert j != i ==> OrderedAt(es, j);
    }
  }

  /** One round of sifting down moves the only disorder to the earlier child. */
  lemma SiftDownStep(es: seq<Entry>, i: nat, c: nat)
    requires i < |es| && 0 < c < |es| && Parent(c) == i && OrderedExceptBelow(es, i)
    requires Before(es[c], es[i])
    requires forall j: nat :: 0 < j < |es| && Parent(j) == i ==> NotAfter(es[c], es[j])
    ensures OrderedExceptBelow(Swapped(es, i, c), c)
  {
    var after := Swapped(es, i, c);
    forall j: nat | 0 < j && Parent(j) != c ensures OrderedAt(after, j) {
      assert Parent(j) != i ==> OrderedAt(es, j);
      assert BridgedAt(es, i, c);
    }
    forall j: nat ensures BridgedAt(after, c, j) {
      assert 0 < j && Parent(j) == c ==> OrderedAt(es, j);
    }
  }

  /** In an ordered heap nothing fires before the root. */
  lemma {:induction false} RootIsFirst(es: seq<Entry>, i: nat)
    requires Ordered(es) && i < |es|
    ensures NotAfter(es[0], es[i])
  {
    if i > 0 {
      RootIsFirst(es, Parent(i));
      assert OrderedAt(es, i);
    }
  }

  /** What `swap_remove` leaves: the last entry in the hole. */
  function Filled(es: seq<Entry>, i: nat): seq<Entry>
    requires i < |es|
  {
    if i + 1 < |es| then es[i := es[|es| - 1]][..|es| - 1] else es[..i]
  }

  /** After the last entry fills the hole at `i`, one of the two directions is all that is wrong. */
  lemma HoleFilled(es: seq<Entry>, i: nat)
    requires Ordered(es) && i < |es|
    ensures var after := Filled(es, i);
            if i >= |after| then Ordered(after)
            else if i > 0 && Before(after[i], after[Parent(i)]) then OrderedExceptAbove(after, i)
            else OrderedExceptBelow(after, i)
  {
    var after := Filled(es, i);
    if i >= |after| {
      forall j: nat ensures OrderedAt(after, j) { assert OrderedAt(es, j); }
      return;
    }
    assert OrderedAt(es, i);
    forall j: nat ensures BridgedAt(after, i, j) {
      assert OrderedAt(es, j);
    }
    if i > 0 && Before(after[i], after[Parent(i)]) {
      forall j: nat | j != i ensures OrderedAt(after, j) {
        assert OrderedAt(es, j);
      }
    } else {
      forall j: nat | 0 < j && Parent(j) != i ensures OrderedAt(after, j) {
        assert OrderedAt(es, j);
      }
    }
  }

  lemma HoleMultiset(es: seq<Entry>, i: nat)
    requires i < |es|
    ensures multiset(Filled(es, i)) == multiset(es) - multiset{es[i]}
  {
    var n := |es|;
    assert es == es[..n - 1] + [es[n - 1]];
    if i + 1 < n {
      assert es[i := es[n - 1]][..n - 1] == es[..n - 1][i := es[n - 1]];
    }
  }

  class TimerHeap {
    var entries: seq<Entry>

    ghost function Slots(): set<Slot>
      reads this
    {
      set e | e in entries :: e.slot
    }

    /** Every slot knows the position of its entry, which also keeps slots distinct. */
    ghost predicate Indexed()
      reads this, Slots()
    {
      |entries| < NOT_QUEUED && forall i :: 0 <= i < |entries| ==> entries[i].slot.index == i
    }

    ghost predicate Valid()
      reads this, Slots()
    {
      Indexed() && Ordered(entries)
    }

    constructor ()
      ensures Valid() && entries == []
    {
      entries := [];
    }

    lemma SlotsFollowEntries(before: seq<Entry>)
      requires multiset(entries) == multiset(before)
      ensures Slots() == set e | e in before :: e.slot
    {
      forall e ensures e in entries <==> e in before {
        assert e in multiset(entries) <==> e in multiset(before);
      }
    }

    method Swap(a: nat, b: nat)
      requires Indexed() && a < |entries| && b < |entries| && a != b
      modifies this, Slots()
      ensures Indexed() && entries == Swapped(old(entries), a, b) && multiset(entries) == multiset(old(entries))
      ensures Slots() == old(Slots())
      ensures forall s :: s in Slots() ==> s.fired == old(s.fired) && s.waker == old(s.waker)
    {
      SwappedMultiset(entries, a, b);
      ghost var before := entries;
      entries := entries[a := entries[b]][b := entries[a]];
      SlotsFollowEntries(before);
      entries[a].slot.index := a;
      entries[b].slot.index := b;
    }

    method SiftUp(start: nat)
      requires Indexed() && start < |entries| && OrderedExceptAbove(entries, start)
      modifies this, Slots()
      ensures Valid() && multiset(entries) == multiset(old(entries)) && Slots() == old(Slots())
      ensures forall s :: s in Slots() ==> s.fired == old(s.fired) && s.waker == old(s.waker)
    {
      var index: nat := start;
      while index > 0
        invariant Indexed() && index < |entries| && OrderedExceptAbove(entries, index)
        invariant multiset(entries) == multiset(old(entries)) && Slots() == old(Slots())
        invariant forall s :: s in Slots() ==> s.fired == old(s.fired) && s.waker == old(s.waker)
      {
        var parent := (index - 1) / 2;
        if !Before(entries[index], entries[parent]) {
          break;
        }
        SiftUpStep(entries, index);
        Swap(index, parent);
        index := parent;
      }
      forall i: nat ensures OrderedAt(entries, i) {}
    }

    method SiftDown(start: nat)
      requires Indexed() && start < |entries| && OrderedExceptBelow(entries, start)
      modifies this, Slots()
      ensures Valid() && multiset(entries) == multiset(old(entries)) && Slots() == old(Slots())
      ensures forall s :: s in Slots() ==> s.fired == old(s.fired) && s.waker == old(s.waker)
    {
      var index: nat := start;
      while index < |entries| / 2
        invariant Indexed() && index < |entries| && OrderedExceptBelow(entries, index)
        invariant multiset(entries) == multiset(old(entries)) && Slots() == old(Slots())
        invariant forall s :: s in Slots() ==> s.fired == old(s.fired) && s.waker == old(s.waker)
        decreases |entries| - index
      {
        var left := 2 * index + 1;
        var right := left + 1;
        var child := if right < |entries| && Before(entries[right], entries[left]) then right else left;
        assert forall j: nat :: 0 < j && Parent(j) == index ==> j == left || j == right;
        if !Before(entries[child], entries[index]) {
          forall i: nat ensures OrderedAt(entries, i) {}
          return;
        }
        SiftDownStep(entries, index, child);
        Swap(index, child);
        index := child;
      }
      forall i: nat ensures OrderedAt(entries, i) {}
    }

    /** Adds an entry whose slot is not queued. */
    method Push(entry: Entry)
      requires Valid() && entry.slot !in Slots() && |entries| + 1 < NOT_QUEUED
      modifies this, Slots(), entry.slot
      ensures Valid() && multiset(entries) == multiset(old(entries)) + multiset{entry}
      ensures Slots() == old(Slots()) + {entry.slot}
      ensures forall s :: s in Slots() ==> s.fired == old(s.fired) && s.waker == old(s.waker)
    {
      var index := |entries|;
      forall i: nat | i != index ensures OrderedAt(entries + [entry], i) {
        assert OrderedAt(entries, i);
      }
      entries := entries + [entry];
      entries[index].slot.index := index;
      assert Slots() == old(Slots()) + {entry.slot};
      SiftUp(index);
    }

    /** `swap_remove` with the index bookkeeping: the last entry fills the hole. */
    method SwapRemove(index: nat) returns (entry: Entry)
      requires Indexed() && index < |entries|
      modifies this, Slots()
      ensures Indexed() && entry == old(entries)[index] && entries == Filled(old(entries), index)
      ensures Slots() == old(Slots()) - {entry.slot} && entry.slot in old(Slots())
      ensures entry.slot.index == NOT_QUEUED
      ensures forall s :: s in old(Slots()) ==> s.fired == old(s.fired) && s.waker == old(s.waker)
    {
      entry := entries[index];
      var last := |entries| - 1;
      entries := if index < last then entries[index := entries[last]][..last] else entries[..index];
      assert forall i :: 0 <= i < |entries| ==> entries[i] == old(entries)[if i == index then last else i];
      assert Slots() == old(Slots()) - {entry.slot} by {
        forall s | s in old(Slots()) && s != entry.slot ensures s in Slots() {
          var k :| 0 <= k < |old(entries)| && old(entries)[k].slot == s;
          assert entries[if k == last then index else k].slot == s;
        }
      }
      entry.slot.index := NOT_QUEUED;
      if index < |entries| {
        entries[index].slot.index := index;
      }
    }

    /** Removes the entry at any position and restores the order in whichever direction it broke. */
    method Remove(index: nat) returns (entry: Entry)
      requires Valid() && index < |entries|
      modifies this, Slots()
      ensures Valid() && entry == old(entries)[index]
      ensures multiset(entries) == multiset(old(entries)) - multiset{entry}
      ensures Slots() == old(Slots()) - {entry.slot} && entry.slot in old(Slots())
      ensures entry.slot.index == NOT_QUEUED
      ensures forall s :: s in old(Slots()) ==> s.fired == old(s.fired) && s.waker == old(s.waker)
    {
      HoleMultiset(entries, index);
      HoleFilled(entries, index);
      entry := SwapRemove(index);
      if index < |entries| {
        if index > 0 && Before(entries[index], entries[(index - 1) / 2]) {
          SiftUp(index);
        } else {
          SiftDown(index);
        }
      }
    }

    /** The entry that fires first, if any. */
    method Pop() returns (entry: Option<Entry>)
      requires Valid()
      modifies this, Slots()
      ensures Valid()
      ensures entry.None? <==> old(entries) == []
      ensures entry.None? ==> entries == []
      ensures entry.Some? ==>
          && multiset(entries) == multiset(old(entries)) - multiset{entry.value}
          && entry.value in old(entries) && entry.value.slot.index == NOT_QUEUED
          && (forall e :: e in old(entries) ==> NotAfter(entry.value, e))
          && Slots() == old(Slots()) - {entry.value.slot} && entry.value.slot in old(Slots())
      ensures entry.Some? ==> forall e :: e in entries ==>
                entry.value.deadline < e.deadline
                || (entry.value.deadline == e.deadline && entry.value.order <= e.order)
      ensures forall s :: s in old(Slots()) ==> s.fired == old(s.fired) && s.waker == old(s.waker)
    {
      if |entries| == 0 {
        return None;
      }
      forall i | 0 <= i < |entries| ensures NotAfter(entries[0], entries[i]) {
        RootIsFirst(entries, i);
      }
      ghost var before := entries;
      var first := Remove(0);
      StillPending(before, entries, first);
      entry := Some(first);
    }

    /** `arm`: registers a slot and reports whether its deadline is now strictly the earliest. */
    method Arm(deadline: nat, order: nat, slot: Slot) returns (earliest: bool)
      requires Valid() && slot !in Slots() && |entries| + 1 < NOT_QUEUED
      modifies this, Slots(), slot
      ensures Valid() && multiset(entries) == multiset(old(entries)) + multiset{Entry(deadline, order, slot)}
      ensures Slots() == old(Slots()) + {slot}
      ensures earliest <==> forall e :: e in old(entries) ==> deadline < e.deadline
      ensures forall s :: s in Slots() ==> s.fired == old(s.fired) && s.waker == old(s.waker)
    {
      forall i | 0 <= i < |entries| ensures NotAfter(entries[0], entries[i]) {
        RootIsFirst(entries, i);
      }
      earliest := |entries| == 0 || deadline < entries[0].deadline;
      Push(Entry(deadline, order, slot));
    }

    /** Dropping an armed sleep takes out exactly its own entry, wherever it is. */
    method Cancel(slot: Slot) returns (removed: Option<Entry>)
      requires Valid() && (slot.index == NOT_QUEUED || slot in Slots())
      modifies this, Slots()
      ensures Valid() && slot !in Slots() && slot.index == NOT_QUEUED
      ensures removed.None? <==> old(slot.index) == NOT_QUEUED
      ensures removed.None? ==> entries == old(entries)
      ensures removed.Some? ==> removed.value.slot == slot && removed.value in old(entries)
                                && multiset(entries) == multiset(old(entries)) - multiset{removed.value}
      ensures forall s :: s in old(Slots()) ==> s.fired == old(s.fired) && s.waker == old(s.waker)
    {
      assert slot in Slots() ==> slot.index < |entries| && entries[slot.index].slot == slot;
      if slot.index == NOT_QUEUED {
        return None;
      }
      var entry := Remove(slot.index);
      removed := Some(entry);
    }

    /** `fired` was due and is marked. */
    ghost predicate FiredSoFar(fired: seq<Entry>, now: nat)
      reads set e | e in fired :: e.slot
    {
      forall e :: e in fired ==>
        e.deadline <= now && e.slot.fired && e.slot.waker == None && e.slot.index == NOT_QUEUED
    }

    /** Pops the root, marks its slot fired and takes its waker. */
    method FireFirst() returns (first: Entry, waker: Option<WakerId>)
      requires Valid() && entries != []
      modifies this, Slots()
      ensures Valid() && first == old(entries)[0] && |entries| < |old(entries)|
      ensures multiset(entries) + multiset{first} == multiset(old(entries))
      ensures forall e :: e in old(entries) ==> NotAfter(first, e)
      ensures forall e :: e in entries ==> e in old(entries)
      ensures Slots() == old(Slots()) - {first.slot} && first.slot in old(Slots())
      ensures first.slot.fired && first.slot.waker == None && first.slot.index == NOT_QUEUED
      ensures waker == old(first.slot.waker)
      ensures forall s :: s in Slots() ==> s.fired == old(s.fired) && s.waker == old(s.waker)
    {
      forall i | 0 <= i < |entries| ensures NotAfter(entries[0], entries[i]) { RootIsFirst(entries, i); }
      ghost var before := entries;
      first := Remove(0);
      StillPending(before, entries, first);
      first.slot.fired := true;
      waker := first.slot.waker;
      first.slot.waker := None;
    }

    lemma StillPending(before: seq<Entry>, after: seq<Entry>, gone: Entry)
      requires multiset(after) == multiset(before) - multiset{gone} && gone in before
      ensures forall e :: e in after ==> e in before
      ensures |after| < |before| && multiset(after) + multiset{gone} == multiset(before)
    {
      forall e | e in after ensures e in before { assert e in multiset(after); assert e in multiset(before); }
      assert |multiset(after)| == |multiset(before)| - 1;
    }

    lemma FiredStep(fired: seq<Entry>, first: Entry, now: nat)
      requires FiredSoFar(fired, now) && first.deadline <= now
      requires first.slot.fired && first.slot.waker == None && first.slot.index == NOT_QUEUED
      ensures FiredSoFar(fired + [first], now)
    {
    }

    /** Who would be woken at each slot. */
    ghost function Wakers(): map<Slot, Option<WakerId>>
      reads this, Slots()
    {
      map s | s in Slots() :: s.waker
    }

    /** `due` is what the slots of the entries due at `now` held before, by deadline and registration number. */
    twostate predicate Woke(due: seq<WakerId>, new woken: seq<Entry>, now: nat) {
      && |due| == |woken|
      && (forall i :: 0 <= i < |due| ==> woken[i] in old(entries) && old(woken[i].slot.waker) == Some(due[i]))
      && (forall i, j :: 0 <= i < j < |woken| ==>
            woken[i] != woken[j]
            && (woken[i].deadline < woken[j].deadline
                || (woken[i].deadline == woken[j].deadline && woken[i].order <= woken[j].order)))
      && (forall e :: e in old(entries) ==> (e in woken <==> e.deadline <= now && old(e.slot.waker).Some?))
      && (due == [] <==> forall e :: e in old(entries) && e.deadline <= now ==> old(e.slot.waker).None?)
    }

    /** The loop of `fire_due`. */
    method FireRoots(now: nat) returns (due: seq<WakerId>, ghost fired: seq<Entry>, ghost woken: seq<Entry>)
      requires Valid()
      modifies this, Slots()
      ensures Valid() && Slots() <= old(Slots()) && (|entries| > 0 ==> now < entries[0].deadline)
      ensures multiset(fired) + multiset(entries) == multiset(old(entries))
      ensures forall e :: e in old(entries) <==> e in fired || e in entries
      ensures FiredSoFar(fired, now) && SortedByFiring(fired) && Collected(fired, woken, due, old(Wakers()))
      ensures forall s :: s in Slots() ==> s.fired == old(s.fired) && s.waker == old(s.waker)
    {
      due, fired, woken := [], [], [];
      ghost var wakers := Wakers();
      while |entries| > 0 && entries[0].deadline <= now
        invariant Valid() && Slots() <= old(Slots())
        invariant Apart(fired, old(Slots()), Slots())
        invariant FiredSoFar(fired, now) && FiredBefore(fired, entries, old(entries))
        invariant forall s :: s in Slots() ==> s.fired == old(s.fired) && s.waker == old(s.waker)
        invariant Collected(fired, woken, due, wakers)
        decreases |entries|
      {
        ghost var before, slots := entries, Slots();
        var first, waker := FireFirst();
        assert HeldAt(first, wakers) == waker;
        FiredBeforeStep(fired, before, entries, old(entries), first);
        CollectedStep(fired, woken, due, wakers, first);
        FiredStep(fired, first, now);
        ApartStep(fired, old(Slots()), slots, first);
        if waker.Some? {
          due := due + [waker.value];
          woken := woken + [first];
        }
        fired := fired + [first];
      }
      FiredOrLeft(fired, entries, old(entries));
    }

    /**
     `fire_due`: takes out exactly the entries due at `now`, by deadline and then by registration
     number, marks their slots and collects the wakers they held in that order, and reports the
     earliest deadline that remains. `woken` are the due entries that held a waker.
     */
    method FireDue(now: nat) returns (next: Option<nat>, due: seq<WakerId>, ghost fired: seq<Entry>,
                                      ghost woken: seq<Entry>)
      requires Valid()
      modifies this, Slots()
      ensures Valid() && multiset(fired) + multiset(entries) == multiset(old(entries))
      ensures forall e :: e in entries ==> now < e.deadline
      ensures forall e :: e in fired ==>
                e.deadline <= now && e.slot.fired && e.slot.waker == None && e.slot.index == NOT_QUEUED
      ensures forall i, j :: 0 <= i < j < |fired| ==>
                fired[i].deadline < fired[j].deadline
                || (fired[i].deadline == fired[j].deadline && fired[i].order <= fired[j].order)
      ensures SortedByFiring(fired)
      ensures forall s :: s in Slots() ==> s in old(Slots()) && s.fired == old(s.fired) && s.waker == old(s.waker)
      ensures |due| == |woken|
      ensures forall i :: 0 <= i < |due| ==> woken[i] in old(entries) && old(woken[i].slot.waker) == Some(due[i])
      ensures forall i, j :: 0 <= i < j < |woken| ==>
                woken[i] != woken[j]
                && (woken[i].deadline < woken[j].deadline
                    || (woken[i].deadline == woken[j].deadline && woken[i].order <= woken[j].order))
      ensures forall e :: e in old(entries) ==> (e in woken <==> e.deadline <= now && old(e.slot.waker).Some?)
      ensures Woke(due, woken, now)
      ensures next.None? <==> entries == []
      ensures next.Some? ==> (exists e :: e in entries && e.deadline == next.value)
                             && forall e :: e in entries ==> next.value <= e.deadline
    {
      due, fired, woken := FireRoots(now);
      assert woken != [] ==> woken[0] in woken;
      next := EarliestDeadline(now);
    }

    /** The root's deadline, which is the earliest of all. */
    method EarliestDeadline(now: nat) returns (next: Option<nat>)
      requires Valid() && (|entries| > 0 ==> now < entries[0].deadline)
      ensures next.None? <==> entries == []
      ensures next.Some? ==> (exists e :: e in entries && e.deadline == next.value)
                             && forall e :: e in entries ==> next.value <= e.deadline
      ensures forall e :: e in entries ==> now < e.deadline
    {
      forall i | 0 <= i < |entries| ensures NotAfter(entries[0], entries[i]) { RootIsFirst(entries, i); }
      if |entries| == 0 { return None; }
      assert entries[0] in entries;
      next := Some(entries[0].deadline);
    }
  }

  /** Nobody fires after somebody later in the sequence. */
  ghost predicate SortedByFiring(s: seq<Entry>) {
    forall i, j :: 0 <= i < j < |s| ==> NotAfter(s[i], s[j])
  }

  /** `woken` are those of `fired` that held a waker, in order, and `due` are those wakers. */
  ghost predicate Collected(fired: seq<Entry>, woken: seq<Entry>, due: seq<WakerId>,
      wakers: map<Slot, Option<WakerId>>)
  {
    && |due| == |woken| && Distinct(woken) && SortedByFiring(woken)
    && (forall i :: 0 <= i < |due| ==> woken[i] in fired && HeldAt(woken[i], wakers) == Some(due[i]))
    && (forall e :: e in fired && HeldAt(e, wakers).Some? ==> e in woken)
  }

  /** `fired` went before everything left of `all`, and in order. */
  ghost predicate FiredBefore(fired: seq<Entry>, left: seq<Entry>, all: seq<Entry>) {
    && multiset(fired) + multiset(left) == multiset(all) && SortedByFiring(fired)
    && forall f, e :: f in fired && e in left ==> NotAfter(f, e)
  }

  ghost predicate Apart(fired: seq<Entry>, all: set<Slot>, left: set<Slot>) {
    forall e :: e in fired ==> e.slot in all && e.slot !in left
  }

  lemma ApartStep(fired: seq<Entry>, all: set<Slot>, left: set<Slot>, first: Entry)
    requires Apart(fired, all, left) && first.slot in left && left <= all
    ensures Apart(fired + [first], all, left - {first.slot}) && first !in fired
  {
  }

  lemma FiredOrLeft(fired: seq<Entry>, left: seq<Entry>, all: seq<Entry>)
    requires FiredBefore(fired, left, all)
    ensures forall e :: e in all <==> e in fired || e in left
  {
    assert forall e :: e in all <==> e in multiset(fired) + multiset(left);
  }

  lemma FiredBeforeStep(fired: seq<Entry>, left: seq<Entry>, after: seq<Entry>, all: seq<Entry>, first: Entry)
    requires FiredBefore(fired, left, all) && multiset(after) + multiset{first} == multiset(left)
    requires forall e :: e in left ==> NotAfter(first, e)
    ensures FiredBefore(fired + [first], after, all) && forall f :: f in fired ==> NotAfter(f, first)
  {
    assert first in multiset(left) && first in left;
    forall e | e in after ensures e in left { assert e in multiset(after); assert e in multiset(left); }
    assert forall f :: f in fired + [first] <==> f in fired || f == first;
  }

  function HeldAt(e: Entry, wakers: map<Slot, Option<WakerId>>): Option<WakerId> {
    if e.slot in wakers then wakers[e.slot] else None
  }

  lemma CollectedStep(fired: seq<Entry>, woken: seq<Entry>, due: seq<WakerId>, wakers: map<Slot, Option<WakerId>>,
      first: Entry)
    requires Collected(fired, woken, due, wakers) && first !in fired
    requires forall f :: f in fired ==> NotAfter(f, first)
    ensures var held := HeldAt(first, wakers);
            Collected(fired + [first], if held.Some? then woken + [first] else woken,
                      if held.Some? then due + [held.value] else due, wakers)
  {
    var more := woken + [first];
    assert forall i :: 0 <= i < |more| ==> more[i] == if i < |woken| then woken[i] else first;
  }

  /** With registration numbers all different, the firing order of a set of entries is unique. */
  lemma {:induction false} FiringOrderIsUnique(a: seq<Entry>, b: seq<Entry>)
    requires SortedByFiring(a) && SortedByFiring(b) && multiset(a) == multiset(b)
    requires forall x, y :: x in a && y in a && x != y ==> x.order != y.order
    ensures a == b
  {
    assert |a| == |multiset(a)| == |multiset(b)| == |b|;
    if a != [] {
      SameFirst(a, b);
      TailMultiset(a);
      TailMultiset(b);
      FiringOrderIsUnique(a[1..], b[1..]);
      assert a == [a[0]] + a[1..] && b == [b[0]] + b[1..];
    }
  }

  lemma TailMultiset(s: seq<Entry>)
    requires s != []
    ensures multiset(s[1..]) == multiset(s) - multiset{s[0]}
  {
    assert s == [s[0]] + s[1..];
  }

  lemma SameFirst(a: seq<Entry>, b: seq<Entry>)
    requires SortedByFiring(a) && SortedByFiring(b) && multiset(a) == multiset(b) && a != [] && b != []
    requires forall x, y :: x in a && y in a && x != y ==> x.order != y.order
    ensures a[0] == b[0]
  {
    assert b[0] in multiset(b) && a[0] in multiset(a);
    assert b[0] in a && a[0] in b;
    var i :| 0 <= i < |b| && b[i] == a[0];
    var j :| 0 <= j < |a| && a[j] == b[0];
  }
}
