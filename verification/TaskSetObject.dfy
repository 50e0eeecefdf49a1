/**
 The `TaskSet` object itself (src/reactor/local.rs): `push`, a waker's `wake_by_ref`, and `poll`.
 Each method carries the state of the protocol in module `TaskSets` along and is proved to take it
 through steps of that protocol only. Wakes are whole calls here; in the protocol they interleave.
 */
module TaskSetObjects {
  import opened Common
  import opened Behaviours
  import opened TaskSets

  /** Some run of the protocol leads here. */
  ghost predicate Reachable(s: State) {
    exists start :: Init(start) && Reaches(Next, start, s)
  }

  lemma ReachableKeepsInv(s: State)
    requires Reachable(s)
    ensures Inv(s)
  {
    var start :| Init(start) && Reaches(Next, start, s);
    var path :| IsPath(Next, path) && path[0] == start && path[|path| - 1] == s;
    RunsKeepInv(path);
  }

  lemma ReachableSizes(s: State)
    requires Reachable(s)
    ensures |s.next| == |s.queued| == |s.live| == |s.wins| == |s.clears| == |s.visits| <= END
            && s.left == |Live(s.live)|
  {
    ReachableKeepsInv(s);
  }

  lemma ReachableStep(from: State, s: State, l: Label)
    requires Reachable(s) && Enabled(s, l) && Reaches(Next, from, s)
    ensures Reachable(Do(s, l)) && Reaches(Next, from, Do(s, l))
  {
    assert Next(s, Do(s, l));
    ReachesNext(Next, from, s, Do(s, l));
    var start :| Init(start) && Reaches(Next, start, s);
    ReachesNext(Next, start, s, Do(s, l));
  }

  /** The cursor names the first entry left of the taken chain, and no later one. */
  lemma AtCursor(s: State, cursor: nat)
    requires Reachable(s) && s.pc == Walking(cursor) && cursor != END
    ensures cursor < |s.next| && s.rest != [] && s.rest == [cursor] + s.rest[1..] && cursor !in s.rest[1..]
  {
    ReachableKeepsInv(s);
    assert s.rest != [] && LinkAt(s.next, s.rest, 0);
  }

  lemma AtTheEnd(s: State)
    requires Reachable(s) && RestStart(s.pc) == END
    ensures s.rest == []
  {
    ReachableKeepsInv(s);
    NothingLeftToWalk(s);
  }

  /** With no push under way the queued slots are those on the two chains, and a chain repeats nobody. */
  lemma QueuedSlots(s: State)
    requires Reachable(s) && s.pushes == map[]
    ensures forall i :: 0 <= i < |s.queued| ==> (s.queued[i] <==> i in s.chain || i in s.rest)
    ensures Distinct(s.rest) && Distinct(s.chain)
    ensures |s.next| == 0 ==> s.chain == []
  {
    ReachableKeepsInv(s);
    if s.chain != [] { assert LinkAt(s.next, s.chain, 0); }
  }

  class TaskSet {
    var head: nat
    var next: seq<nat>
    var queued: seq<bool>
    var live: seq<bool>
    var left: nat
    /** The driver's waker, if it is registered. */
    var parent: Option<nat>
    ghost var state: State

    /** The fields are those of the protocol's state, and no push is under way. */
    ghost predicate During()
      reads this
    {
      Mirrors() && Reachable(state) && state.pushes == map[] && state.owed == 0
    }

    ghost predicate Mirrors()
      reads this
    {
      && head == state.head && next == state.next && queued == state.queued && live == state.live
      && left == state.left && parent.Some? == state.registered
    }

    /** Between polls. */
    ghost predicate Valid()
      reads this
    {
      During() && state.pc == Idle && state.rest == []
    }

    constructor ()
      ensures Valid() && Init(state)
    {
      head, next, queued, live, left, parent := END, [], [], [], 0, None;
      state := State(END, [], [], [], 0, map[], false, true, 0, Idle, [], [], {}, {}, [], [], []);
      new;
      ReachesSelf(Next, state);
    }

    /** One step of the protocol. */
    ghost method Step(l: Label, from: State)
      requires Reachable(state) && Enabled(state, l) && Reaches(Next, from, state)
      modifies this`state
      ensures state == Do(old(state), l) && Reachable(state) && Reaches(Next, from, state)
    {
      ReachableStep(from, state, l);
      state := Do(state, l);
    }

    /** The push loop for a slot whose right to queue is won. */
    method Link(i: nat, ghost from: State)
      requires Mirrors() && Reachable(state) && state.pushes.Keys == {i} && state.pushes[i].Won? && i < |next|
      requires Reaches(Next, from, state)
      modifies this`next, this`head, this`state
      ensures Mirrors() && Reachable(state) && Reaches(Next, from, state)
      ensures var viaWake := old(state).pushes[i].viaWake;
              state == old(state).(next := old(next)[i := old(head)], head := i, pushes := map[],
                                   chain := [i] + old(state).chain,
                                   owed := old(state).owed + (if viaWake then 1 else 0),
                                   woken := if viaWake then old(state).woken + {i} else old(state).woken - {i})
    {
      Step(Load(i), from);
      next := next[i := head];
      Step(Store(i), from);
      head := i;
      Step(CompareExchange(i), from);
      assert state.pushes == map[];
    }

    /** Adds a future; it has its entry before it is on the chain, and is owed a first poll. */
    method Push()
      requires Valid() && |next| < END
      modifies this
      ensures Valid() && Reaches(Next, old(state), state)
      ensures state.chain == [old(|next|)] + old(state.chain)
      ensures live == old(live) + [true] && left == old(left) + 1 && queued == old(queued) + [true]
      ensures parent == old(parent)
    {
      var index := |next|;
      ReachableSizes(state);
      ReachesSelf(Next, state);
      ghost var from := state;
      next, queued, live := next + [END], queued + [true], live + [true];
      left := left + 1;
      Step(Add, from);
      Link(index, from);
    }

    /** Queues the slot unless it is queued already, and calls the driver if it did. */
    method WakeByRef(i: nat) returns (woken: Option<nat>)
      requires During() && i < |queued|
      modifies this`next, this`queued, this`head, this`parent, this`state
      ensures During() && Reaches(Next, old(state), state)
      ensures state.pc == old(state.pc) && state.rest == old(state.rest)
      ensures live == old(live) && left == old(left) && queued == old(queued)[i := true]
      ensures state.chain == if old(queued)[i] then old(state.chain) else [i] + old(state.chain)
      ensures (woken, parent) == if old(queued)[i] then (None, old(parent)) else (old(parent), None)
    {
      ReachesSelf(Next, state);
      ghost var from := state;
      if queued[i] { return None; }
      ReachableSizes(state);
      queued := queued[i := true];
      Step(Wake(i), from);
      Link(i, from);
      woken := parent;
      parent := None;
      Step(WakeParent, from);
    }

    /**
     A series of wakes, whoever raises them; `called` are the drivers' wakers that they call. The
     first to queue a slot takes the driver's waker and calls it, and no other call is made.
     */
    method WakeEach(wakes: seq<nat>) returns (called: seq<nat>)
      requires During() && forall i :: i in wakes ==> i < |queued|
      modifies this`next, this`queued, this`head, this`parent, this`state
      ensures During() && Reaches(Next, old(state), state)
      ensures state.pc == old(state.pc) && state.rest == old(state.rest)
      ensures live == old(live) && left == old(left) && |queued| == |old(queued)|
      ensures forall i :: 0 <= i < |queued| ==> (queued[i] <==> old(queued)[i] || i in wakes)
      ensures if exists i :: i in wakes && !old(queued)[i]
              then parent == None && called == if old(parent).Some? then [old(parent).value] else []
              else parent == old(parent) && called == []
    {
      called := [];
      ReachesSelf(Next, state);
      for k := 0 to |wakes|
        invariant During() && Reaches(Next, old(state), state)
        invariant state.pc == old(state.pc) && state.rest == old(state.rest)
        invariant live == old(live) && left == old(left) && |queued| == |old(queued)|
        invariant forall i :: 0 <= i < |queued| ==> (queued[i] <==> old(queued)[i] || i in wakes[..k])
        invariant if exists i :: i in wakes[..k] && i < |queued| && !old(queued)[i]
                  then parent == None && called == if old(parent).Some? then [old(parent).value] else []
                  else parent == old(parent) && called == []
      {
        assert wakes[..k + 1] == wakes[..k] + [wakes[k]] && wakes[k] in wakes;
        ghost var before := state;
        var woken := WakeByRef(wakes[k]);
        if woken.Some? { called := called + [woken.value]; }
        ReachesThrough(Next, old(state), before, state);
      }
      assert wakes[..|wakes|] == wakes;
    }

    /**
     `i` was woken in the turn of a slot visited in this pass, after its own turn or in it, so it
     waits for the next pass.
     */
    ghost predicate Requeued(visited: seq<nat>, ahead: seq<nat>, wakes: seq<seq<nat>>, i: nat) {
      exists k :: 0 <= k < |visited| && WokenAt(visited, ahead, wakes, i, k)
    }

    ghost predicate WokenAt(visited: seq<nat>, ahead: seq<nat>, wakes: seq<seq<nat>>, i: nat, k: nat)
      requires k < |visited|
    {
      visited[k] < |wakes| && i in wakes[visited[k]] && i !in visited[k + 1..] && i !in ahead
    }

    lemma RequeuedStep(visited: seq<nat>, c: nat, ahead: seq<nat>, wakes: seq<seq<nat>>, i: nat)
      requires c < |wakes| && i != c
      ensures Requeued(visited + [c], ahead, wakes, i)
              <==> Requeued(visited, [c] + ahead, wakes, i) || (i in wakes[c] && i !in ahead)
    {
      var more := visited + [c];
      forall k | 0 <= k < |visited|
        ensures WokenAt(more, ahead, wakes, i, k) <==> WokenAt(visited, [c] + ahead, wakes, i, k)
      {
        assert more[k + 1..] == visited[k + 1..] + [c];
      }
      assert WokenAt(more, ahead, wakes, i, |visited|) <==> (i in wakes[c] && i !in ahead);
      if Requeued(more, ahead, wakes, i) {
        var k :| 0 <= k < |more| && WokenAt(more, ahead, wakes, i, k);
      }
    }

    lemma RequeuedSelf(visited: seq<nat>, c: nat, ahead: seq<nat>, wakes: seq<seq<nat>>)
      requires c < |wakes| && c !in ahead
      ensures Requeued(visited + [c], ahead, wakes, c) <==> c in wakes[c]
    {
      var more := visited + [c];
      forall k | 0 <= k < |visited| ensures !WokenAt(more, ahead, wakes, c, k) {
        assert more[k + 1..][|more| - 1 - (k + 1)] == c;
      }
      assert WokenAt(more, ahead, wakes, c, |visited|) <==> c in wakes[c];
    }

    /** The head of a turn: reads the link, then unqueues the slot. */
    method Unqueue(cursor: nat, ghost from: State) returns (following: nat)
      requires During() && state.pc == Walking(cursor) && cursor != END && Reaches(Next, from, state)
      modifies this`queued, this`state
      ensures During() && Reaches(Next, from, state) && state.pc == Polling(cursor, following)
      ensures cursor < |live| == |queued| == |old(queued)| && queued == old(queued)[cursor := false]
      ensures old(state).rest == [cursor] + state.rest && cursor !in state.rest
    {
      AtCursor(state, cursor);
      ReachableSizes(state);
      following := next[cursor];
      Step(ReadNext, from);
      queued := queued[cursor := false];
      Step(ClearQueued, from);
    }

    /** The end of a turn: the future, if there is one, is polled and perhaps finishes. */
    method Finish(cursor: nat, following: nat, finishes: bool, ghost from: State)
      requires During() && state.pc == Polling(cursor, following) && cursor < |live| && Reaches(Next, from, state)
      modifies this`live, this`left, this`state
      ensures During() && Reaches(Next, from, state) && state.pc == Walking(following) && state.rest == old(state).rest
      ensures live == old(live)[cursor := old(live)[cursor] && !finishes]
    {
      ReachableSizes(state);
      if live[cursor] && finishes {
        assert cursor in Live(live);
        live := live[cursor := false];
        left := left - 1;
      }
      Step(PollTask(finishes), from);
    }

    /** One turn of the walk: `wakes` are raised between the unqueueing and the end of the poll. */
    method Visit(cursor: nat, finishes: bool, wakes: seq<nat>)
        returns (following: nat, called: seq<nat>)
      requires During() && state.pc == Walking(cursor) && cursor != END
      requires forall i :: i in wakes ==> i < |queued|
      modifies this
      ensures During() && Reaches(Next, old(state), state) && state.pc == Walking(following)
      ensures cursor < |old(live)| && old(state).rest == [cursor] + state.rest && cursor !in state.rest
      ensures live == old(live)[cursor := old(live)[cursor] && !finishes] && |queued| == |old(queued)|
      ensures forall i :: 0 <= i < |queued| ==> (queued[i] <==> (i != cursor && old(queued)[i]) || i in wakes)
      ensures if exists i :: i in wakes && (i == cursor || !old(queued)[i])
              then parent == None && called == if old(parent).Some? then [old(parent).value] else []
              else parent == old(parent) && called == []
    {
      ReachesSelf(Next, state);
      ghost var from := state;
      following := Unqueue(cursor, from);
      ghost var middle := state;
      called := WakeEach(wakes);
      ReachesThrough(Next, from, middle, state);
      Finish(cursor, following, finishes, from);
    }

    /** Queued is what is still ahead in the pass and what waits for the next one. */
    ghost predicate Marked(queued: seq<bool>, visited: seq<nat>, ahead: seq<nat>, wakes: seq<seq<nat>>) {
      forall i :: 0 <= i < |queued| ==> (queued[i] <==> i in ahead || Requeued(visited, ahead, wakes, i))
    }

    /** What one turn does to the queued marks, in terms of the whole pass. */
    lemma TurnRequeues(before: seq<bool>, after: seq<bool>, visited: seq<nat>, c: nat, ahead: seq<nat>,
        wakes: seq<seq<nat>>)
      requires |before| == |after| == |wakes| && c < |wakes| && c !in ahead
      requires Marked(before, visited, [c] + ahead, wakes)
      requires forall i :: 0 <= i < |after| ==> (after[i] <==> (i != c && before[i]) || i in wakes[c])
      ensures Marked(after, visited + [c], ahead, wakes)
    {
      forall i: nat | i < |after|
        ensures after[i] <==> i in ahead || Requeued(visited + [c], ahead, wakes, i)
      {
        if i == c { RequeuedSelf(visited, c, ahead, wakes); }
        else { RequeuedStep(visited, c, ahead, wakes, i); }
      }
    }

    /** Either the driver is registered and only what is `ahead` is queued, or it has been called, once. */
    ghost predicate Told(queued: seq<bool>, parent: Option<nat>, waker: nat, called: seq<nat>, ahead: seq<nat>) {
      if exists i :: 0 <= i < |queued| && queued[i] && i !in ahead then called == [waker] && parent == None
      else called == [] && parent == Some(waker)
    }

    lemma TurnTells(before: seq<bool>, after: seq<bool>, parent: Option<nat>, parent': Option<nat>, waker: nat,
        called: seq<nat>, calls: seq<nat>, c: nat, ahead: seq<nat>, wakes: seq<nat>)
      requires |before| == |after| && c < |before| && c !in ahead
      requires forall i :: i in wakes ==> i < |before|
      requires forall i :: 0 <= i < |before| && i in [c] + ahead ==> before[i]
      requires forall i :: 0 <= i < |after| ==> (after[i] <==> (i != c && before[i]) || i in wakes)
      requires Told(before, parent, waker, called, [c] + ahead)
      requires if exists i :: i in wakes && (i == c || !before[i])
               then parent' == None && calls == if parent.Some? then [parent.value] else []
               else parent' == parent && calls == []
      ensures Told(after, parent', waker, called + calls, ahead)
    {
      if i :| 0 <= i < |before| && before[i] && i !in [c] + ahead {
        assert i != c && after[i];
      }
      if i :| i in wakes && (i == c || !before[i]) {
        assert after[i] && i !in ahead;
      }
    }

    /**
     One pass. `finishes` says which futures complete when polled and `wakes` which slots are woken
     in whose turn, by that future or by any other thread. Exactly the chain as it stood is visited,
     once each and in order; finished futures leave; what was woken too late for this pass is queued
     for the next one. If anything was, the driver given to this pass was called, once; if nothing
     was, it is the one that the next wake will call.
     */
    method Poll(waker: nat, finishes: seq<bool>, wakes: seq<seq<nat>>)
        returns (ready: bool, called: seq<nat>, ghost visited: seq<nat>)
      requires Valid() && |finishes| == |wakes| == |live|
      requires forall k, i :: 0 <= k < |wakes| && i in wakes[k] ==> i < |live|
      modifies this
      ensures Valid() && Reaches(Next, old(state), state) && visited == old(state).chain
      ensures |live| == |old(live)| && |queued| == |live|
      ensures forall i :: 0 <= i < |live| ==> live[i] == (old(live)[i] && !(i in visited && finishes[i]))
      ensures forall i :: 0 <= i < |queued| ==> (queued[i] <==> Requeued(visited, [], wakes, i))
      ensures ready <==> forall i :: 0 <= i < |live| ==> !live[i]
      ensures |live| == 0 ==> called == [] && parent == old(parent)
      ensures |live| > 0 && (exists i :: 0 <= i < |queued| && queued[i]) ==> called == [waker] && parent == None
      ensures |live| > 0 && (forall i :: 0 <= i < |queued| ==> !queued[i]) ==> called == [] && parent == Some(waker)
    {
      ReachesSelf(Next, state);
      ghost var from := state;
      visited := [];
      QueuedSlots(state);
      ReachableSizes(state);
      if |next| == 0 { return true, [], []; }
      Step(BeginPoll, from);
      parent := Some(waker);
      Step(RegisterParent, from);
      var cursor := head;
      head := END;
      Step(TakeChain, from);
      called := Walk(waker, finishes, wakes, cursor, from);
      visited := from.chain;
      Step(EndPoll, from);
      ready := left == 0;
      ReachableSizes(state);
      NobodyLeft(live);
    }

    lemma NobodyLeft(live: seq<bool>)
      ensures |Live(live)| == 0 <==> forall i :: 0 <= i < |live| ==> !live[i]
    {
      assert forall i: nat :: i < |live| && live[i] ==> i in Live(live);
      if forall i :: 0 <= i < |live| ==> !live[i] {
        assert Live(live) == {};
      }
    }

    /** The walk over the chain that was taken. */
    method Walk(waker: nat, finishes: seq<bool>, wakes: seq<seq<nat>>, start: nat, ghost from: State)
        returns (called: seq<nat>)
      requires During() && state.pc == Walking(start) && Reaches(Next, from, state) && state.chain == []
      requires parent == Some(waker)
      requires |finishes| == |wakes| == |live| && forall k, i :: 0 <= k < |wakes| && i in wakes[k] ==> i < |live|
      modifies this
      ensures During() && state.pc == Walking(END) && state.rest == [] && Reaches(Next, from, state)
      ensures |live| == |old(live)| && |queued| == |live|
      ensures forall i :: 0 <= i < |live| ==> live[i] == (old(live)[i] && !(i in old(state).rest && finishes[i]))
      ensures forall i :: 0 <= i < |queued| ==> (queued[i] <==> Requeued(old(state).rest, [], wakes, i))
      ensures Told(queued, parent, waker, called, [])
    {
      called := [];
      var cursor := start;
      ghost var visited := [];
      QueuedSlots(state);
      ReachableSizes(state);
      while cursor != END
        invariant During() && state.pc == Walking(cursor) && Reaches(Next, from, state)
        invariant |live| == |queued| == |old(live)| && visited + state.rest == old(state).rest
        invariant forall i :: 0 <= i < |live| ==> live[i] == (old(live)[i] && !(i in visited && finishes[i]))
        invariant Marked(queued, visited, state.rest, wakes)
        invariant Told(queued, parent, waker, called, state.rest)
        decreases |state.rest|
      {
        ghost var before, c, driver := state, cursor, parent;
        AtCursor(state, cursor);
        ReachableSizes(state);
        var calls;
        cursor, calls := Visit(cursor, finishes[cursor], wakes[cursor]);
        ReachesThrough(Next, from, before, state);
        TurnRequeues(before.queued, queued, visited, c, state.rest, wakes);
        TurnTells(before.queued, queued, driver, parent, waker, called, calls, c, state.rest, wakes[c]);
        Regroup(visited, [c], state.rest);
        FreshCursor(visited, before.rest, old(state).rest);
        visited, called := visited + [c], called + calls;
      }
      AtTheEnd(state);
      assert visited == old(state).rest;
    }

    lemma FreshCursor(visited: seq<nat>, rest: seq<nat>, all: seq<nat>)
      requires visited + rest == all && Distinct(all) && rest != []
      ensures rest[0] !in visited
    {
      forall k | 0 <= k < |visited| ensures visited[k] != rest[0] {
        assert all[k] == visited[k] && all[|visited|] == rest[0];
      }
    }
  }
}
