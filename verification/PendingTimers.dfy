/**
 The pending timers as the drivers see them: deadlines by registration number. The registry itself
 is `TimerHeaps.TimerHeap`; `TimerViews` proves that its operations are the sections defined here.
 */
module PendingTimers {

  /** The cached deadline when there is none. */
  const NO_DEADLINE: nat := 0xFFFF_FFFF_FFFF_FFFF

  type Timers = map<nat, nat>

  /** Every pending deadline is at or after `d`. */
  ghost predicate NoneBefore(heap: Timers, d: nat) {
    forall id :: id in heap ==> d <= heap[id]
  }

  /** What `arm` reports: strictly earlier than everything pending. */
  ghost predicate IsEarliest(heap: Timers, d: nat) {
    forall id :: id in heap ==> d < heap[id]
  }

  /** What firing at `t` leaves. */
  function Remaining(heap: Timers, t: nat): Timers {
    map id | id in heap && t < heap[id] :: heap[id]
  }

  /** `next` is the earliest pending deadline, or `none` when nothing is pending. */
  ghost predicate IsNext(heap: Timers, next: nat, none: nat) {
    NoneBefore(heap, next) && (next == none || exists id :: id in heap && heap[id] == next)
  }

  /** The earliest pending deadline. */
  ghost function MinOf(heap: Timers): nat
    requires heap != map[]
    ensures NoneBefore(heap, MinOf(heap)) && exists id :: id in heap && heap[id] == MinOf(heap)
    decreases |heap|
  {
    var id :| id in heap;
    var rest := heap - {id};
    if rest == map[] then
      assert forall other :: other in heap ==> other == id || other in rest;
      heap[id]
    else
      var m := MinOf(rest);
      assert forall other :: other in heap ==> other == id || other in rest;
      if heap[id] < m then heap[id] else m
  }

  /** The same, with `none` when nothing is pending. */
  ghost function NextOf(heap: Timers, none: nat): (next: nat)
    ensures IsNext(heap, next, none)
  {
    if heap == map[] then none else MinOf(heap)
  }
}
