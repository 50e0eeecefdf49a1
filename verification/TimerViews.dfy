/** The heap's entries as the drivers' protocols see them, and its operations as their sections. */
module TimerViews {
  import opened Common
  import opened TimerHeaps
  import opened PendingTimers

  ghost function Members(es: seq<Entry>): set<Entry> {
    set e | e in es
  }

  ghost predicate Once(es: seq<Entry>) {
    forall e :: e in es ==> multiset(es)[e] == 1
  }

  /** Registration numbers name the entries. */
  ghost predicate Named(es: set<Entry>) {
    forall a, b :: a in es && b in es && a.order == b.order ==> a == b
  }

  ghost predicate Numbered(es: seq<Entry>) {
    Once(es) && Named(Members(es))
  }

  ghost function Deadlines(es: set<Entry>): Timers
    requires Named(es)
  {
    map e | e in es :: e.order := e.deadline
  }

  ghost function TimersOf(es: seq<Entry>): Timers
    requires Numbered(es)
  {
    Deadlines(Members(es))
  }

  lemma DeadlineOf(es: set<Entry>, e: Entry)
    requires Named(es) && e in es
    ensures e.order in Deadlines(es) && Deadlines(es)[e.order] == e.deadline
  {
  }

  lemma JoinedMembers(a: seq<Entry>, b: seq<Entry>, all: seq<Entry>)
    requires multiset(a) + multiset(b) == multiset(all)
    ensures Members(all) == Members(a) + Members(b)
    ensures Once(all) ==> Once(a) && Once(b) && Members(a) !! Members(b)
    ensures Once(a) && Once(b) && Members(a) !! Members(b) ==> Once(all)
  {
    forall e ensures e in all <==> e in a || e in b {
      assert e in all <==> multiset(all)[e] > 0;
    }
    if Once(all) {
      forall e | e in a ensures multiset(a)[e] == 1 && e !in b { assert e in all; }
      forall e | e in b ensures multiset(b)[e] == 1 { assert e in all; }
      forall e | e in Members(a) ensures e !in Members(b) {}
    }
    if Once(a) && Once(b) && Members(a) !! Members(b) {
      forall e | e in all ensures multiset(all)[e] == 1 {
        assert e in a ==> e in Members(a);
        assert e in b ==> e in Members(b);
        assert multiset(all)[e] == multiset(a)[e] + multiset(b)[e];
      }
    }
  }

  lemma OneMember(e: Entry)
    ensures Members([e]) == {e} && Once([e]) && multiset([e]) == multiset{e}
  {
    assert e in [e];
  }

  lemma AddDeadline(es: set<Entry>, e: Entry)
    requires Named(es) && forall x :: x in es ==> x.order != e.order
    ensures Named(es + {e}) && Deadlines(es + {e}) == Deadlines(es)[e.order := e.deadline]
  {
  }

  lemma DropDeadline(es: set<Entry>, e: Entry)
    requires Named(es) && e in es
    ensures Named(es - {e}) && Deadlines(es - {e}) == Deadlines(es) - {e.order}
  {
  }

  lemma EarliestDeadline(es: set<Entry>, d: nat)
    requires Named(es)
    ensures (forall x :: x in es ==> d < x.deadline) <==> IsEarliest(Deadlines(es), d)
    ensures (forall x :: x in es ==> d <= x.deadline) <==> NoneBefore(Deadlines(es), d)
  {
    forall x | x in es ensures x.order in Deadlines(es) && Deadlines(es)[x.order] == x.deadline { DeadlineOf(es, x); }
  }

  /** Pushing an entry is the registry half of an arm, and it is announced when the protocol says so. */
  lemma ArmIsASection(before: seq<Entry>, after: seq<Entry>, e: Entry)
    requires Numbered(before) && multiset(after) == multiset(before) + multiset{e}
    requires forall x :: x in before ==> x.order != e.order
    ensures Numbered(after) && Members(after) == Members(before) + {e}
    ensures TimersOf(after) == TimersOf(before)[e.order := e.deadline]
    ensures (forall x :: x in before ==> e.deadline < x.deadline) <==> IsEarliest(TimersOf(before), e.deadline)
  {
    OneMember(e);
    JoinedMembers(before, [e], after);
    AddDeadline(Members(before), e);
    EarliestDeadline(Members(before), e.deadline);
    assert forall x :: x in before <==> x in Members(before);
  }

  /** Taking one entry out is the protocol's drop of its timer. */
  lemma CancelIsASection(before: seq<Entry>, after: seq<Entry>, e: Entry)
    requires Numbered(before) && e in before && multiset(after) == multiset(before) - multiset{e}
    ensures Numbered(after) && Members(after) == Members(before) - {e}
    ensures TimersOf(after) == TimersOf(before) - {e.order}
  {
    OneMember(e);
    JoinedMembers(after, [e], before);
    DropDeadline(Members(before), e);
    assert Members(after) == Members(before) - {e};
  }

  /** Firing what is due leaves what the protocol's firing leaves, and reports what it reports. */
  lemma FireIsASection(before: seq<Entry>, after: seq<Entry>, fired: seq<Entry>, now: nat, next: Option<nat>, none: nat)
    requires Numbered(before) && multiset(fired) + multiset(after) == multiset(before)
    requires (forall e :: e in fired ==> e.deadline <= now) && (forall e :: e in after ==> now < e.deadline)
    requires next.None? <==> after == []
    requires next.Some? ==> exists e :: e in after && e.deadline == next.value
    requires next.Some? ==> forall e :: e in after ==> next.value <= e.deadline
    ensures Numbered(after) && Members(before) == Members(fired) + Members(after)
    ensures TimersOf(after) == Remaining(TimersOf(before), now)
    ensures (if next.Some? then next.value else none) == NextOf(TimersOf(after), none)
  {
    JoinedMembers(fired, after, before);
    assert forall x :: x in after <==> x in Members(after);
    assert forall x :: x in fired <==> x in Members(fired);
    RemainingDeadlines(Members(before), Members(after), now);
    if next.Some? {
      EarliestDeadline(Members(after), next.value);
      var e :| e in after && e.deadline == next.value;
      DeadlineOf(Members(after), e);
    } else {
      assert TimersOf(after) == map[];
    }
  }

  lemma RemainingDeadlines(before: set<Entry>, after: set<Entry>, now: nat)
    requires Named(before) && after <= before
    requires forall x :: x in before ==> (x in after <==> now < x.deadline)
    ensures Named(after) && Deadlines(after) == Remaining(Deadlines(before), now)
  {
    var left := Remaining(Deadlines(before), now);
    forall id ensures id in left <==> id in Deadlines(after) {
      if id in left {
        var e :| e in before && e.order == id;
        assert e in after;
      }
    }
  }
}
