/**
 The ready chain of `TaskSet` (src/reactor/local.rs): a stack threaded through its slots.
 Any number of wakers push at once, each atomic operation its own step; one poller takes the
 whole chain and walks it, also one atomic operation at a time.
 */
module TaskSets {
  import opened Common
  import opened Behaviours

  /** The end of a chain; indices stay below it. */
  const END: nat := 0xFFFF_FFFF

  /** A push under way: the right to queue is won, the head is loaded, the link is stored. */
  datatype Push = Won(viaWake: bool) | Loaded(viaWake: bool, seen: nat) | Linked(viaWake: bool, seen: nat)

  /** The poller between the steps of `TaskSet::poll`. */
  datatype Pc =
    | Idle
    | Entered
    | Registered
    | Walking(cursor: nat)
    | Unqueueing(cursor: nat, following: nat)
    | Polling(cursor: nat, following: nat)

  /**
   `head` to `left` are the set's own state and `pushes` the pushes under way, by slot.
   `registered` and `notified` are the parent waker's slot and whether the driver was woken since
   it last polled; `owed` counts pushes that linked and have not called the parent yet.
   The rest is bookkeeping: the two chains, which slots were queued by a wake, which were
   unqueued in this pass, and per slot how often it was queued, unqueued and visited.
   */
  datatype State = State(
    head: nat, next: seq<nat>, queued: seq<bool>, live: seq<bool>, left: nat,
    pushes: map<nat, Push>, registered: bool, notified: bool, owed: nat, pc: Pc,
    chain: seq<nat>, rest: seq<nat>, woken: set<nat>, seen: set<nat>,
    wins: seq<nat>, clears: seq<nat>, visits: seq<nat>)

  datatype Label =
    | Add
    | Wake(i: nat)
    | Load(i: nat)
    | Store(i: nat)
    | CompareExchange(i: nat)
    | WakeParent
    | BeginPoll
    | RegisterParent
    | TakeChain
    | ReadNext
    | ClearQueued
    | PollTask(finishes: bool)
    | EndPoll

  ghost predicate Enabled(s: State, l: Label) {
    match l
    case Add => s.pc == Idle && |s.next| < END
    case Wake(i) => i < |s.queued|
    case Load(i) => i in s.pushes && s.pushes[i].Won?
    case Store(i) => i in s.pushes && s.pushes[i].Loaded? && i < |s.next|
    case CompareExchange(i) => i in s.pushes && s.pushes[i].Linked?
    case WakeParent => s.owed > 0
    case BeginPoll => s.pc == Idle && forall i :: i in s.pushes ==> s.pushes[i].viaWake
    case RegisterParent => s.pc == Entered
    case TakeChain => s.pc == Registered
    case ReadNext => s.pc.Walking? && s.pc.cursor < |s.next|
    case ClearQueued => s.pc.Unqueueing? && s.pc.cursor < |s.queued| == |s.clears|
    case PollTask(_) => s.pc.Polling? && s.pc.cursor < |s.live| == |s.visits|
    case EndPoll => s.pc == Walking(END)
  }

  /** A new entry, queued from birth, is in the vector before its push begins. */
  function DoAdd(s: State): State {
    s.(next := s.next + [END], queued := s.queued + [true], live := s.live + [true], left := s.left + 1,
       pushes := s.pushes[|s.next| := Won(false)],
       wins := s.wins + [1], clears := s.clears + [0], visits := s.visits + [0])
  }

  /** `queued.swap(true)`: only the one that found it clear goes on to push. */
  function DoWake(s: State, i: nat): State
    requires i < |s.queued|
  {
    if s.queued[i] || i >= |s.wins| then s
    else s.(queued := s.queued[i := true], pushes := s.pushes[i := Won(true)], wins := s.wins[i := s.wins[i] + 1])
  }

  function DoCompareExchange(s: State, i: nat): State
    requires i in s.pushes && s.pushes[i].Linked?
  {
    var p := s.pushes[i];
    if s.head == p.seen then
      s.(head := i, pushes := s.pushes - {i}, owed := s.owed + (if p.viaWake then 1 else 0), chain := [i] + s.chain,
         woken := if p.viaWake then s.woken + {i} else s.woken - {i})
    else
      s.(pushes := s.pushes[i := Loaded(p.viaWake, s.head)])
  }

  /** `AtomicWaker::wake`: takes the registered waker, if one is there, and calls it. */
  function DoWakeParent(s: State): State
    requires s.owed > 0
  {
    s.(owed := s.owed - 1, registered := false, notified := s.notified || s.registered)
  }

  function DoPollTask(s: State, finishes: bool): State
    requires s.pc.Polling? && s.pc.cursor < |s.live| == |s.visits|
  {
    var c := s.pc.cursor;
    var done := s.live[c] && finishes;
    s.(pc := Walking(s.pc.following), live := if done then s.live[c := false] else s.live,
       left := if done && s.left > 0 then s.left - 1 else s.left, visits := s.visits[c := s.visits[c] + 1])
  }

  function Do(s: State, l: Label): State
    requires Enabled(s, l)
  {
    match l
    case Add => DoAdd(s)
    case Wake(i) => DoWake(s, i)
    case Load(i) => s.(pushes := s.pushes[i := Loaded(s.pushes[i].viaWake, s.head)])
    case Store(i) =>
      var p := s.pushes[i];
      s.(next := s.next[i := p.seen], pushes := s.pushes[i := Linked(p.viaWake, p.seen)])
    case CompareExchange(i) => DoCompareExchange(s, i)
    case WakeParent => DoWakeParent(s)
    case BeginPoll => s.(pc := Entered, notified := false)
    case RegisterParent => s.(pc := Registered, registered := true)
    case TakeChain => s.(pc := Walking(s.head), head := END, rest := s.chain, chain := [], seen := {}, woken := {})
    case ReadNext => s.(pc := Unqueueing(s.pc.cursor, s.next[s.pc.cursor]))
    case ClearQueued =>
      s.(pc := Polling(s.pc.cursor, s.pc.following), queued := s.queued[s.pc.cursor := false],
         rest := if s.rest == [] then [] else s.rest[1..], seen := s.seen + {s.pc.cursor},
         clears := s.clears[s.pc.cursor := s.clears[s.pc.cursor] + 1])
    case PollTask(finishes) => DoPollTask(s, finishes)
    case EndPoll => s.(pc := Idle)
  }

  /** An empty set that its driver has yet to poll for the first time. */
  ghost predicate Init(s: State) {
    s == State(END, [], [], [], 0, map[], false, true, 0, Idle, [], [], {}, {}, [], [], [])
  }

  ghost predicate Next(s: State, t: State) {
    exists l :: Enabled(s, l) && t == Do(s, l)
  }

  // ---------- The invariant ----------

  /** What follows position `k` of a chain. */
  function After(chain: seq<nat>, k: nat): nat {
    if k + 1 < |chain| then chain[k + 1] else END
  }

  ghost predicate LinkAt(next: seq<nat>, chain: seq<nat>, k: nat) {
    k < |chain| && chain[k] < |next| && next[chain[k]] == After(chain, k)
  }

  /** Reading links from `first` visits exactly `chain` and stops: no cycle, no stray index. */
  ghost predicate Threads(next: seq<nat>, first: nat, chain: seq<nat>) {
    && first == (if chain == [] then END else chain[0])
    && forall k :: 0 <= k < |chain| ==> LinkAt(next, chain, k)
  }

  /** Where the unwalked part of the taken chain starts. */
  function RestStart(pc: Pc): nat {
    match pc
    case Walking(cursor) => cursor
    case Unqueueing(cursor, _) => cursor
    case Polling(_, following) => following
    case _ => END
  }

  ghost predicate Sizes(s: State) {
    && |s.next| == |s.queued| == |s.live| == |s.wins| == |s.clears| == |s.visits| <= END
  }

  /** A slot is queued exactly when it is in one of three places, and it is never in two. */
  ghost predicate Placed(s: State) {
    && Distinct(s.chain) && Distinct(s.rest)
    && (forall i :: i in s.chain ==> i !in s.rest && i !in s.pushes)
    && (forall i :: i in s.rest ==> i !in s.pushes)
    && (forall i :: i in s.chain || i in s.rest || i in s.pushes ==> i < |s.queued| && s.queued[i])
    && (forall i :: 0 <= i < |s.queued| && s.queued[i] ==> i in s.chain || i in s.rest || i in s.pushes)
  }

  ghost predicate PushOk(s: State, i: nat)
    requires i in s.pushes
  {
    && i < |s.next|
    && (s.pushes[i].Linked? ==> s.next[i] == s.pushes[i].seen)
  }

  ghost predicate Chains(s: State) {
    && Threads(s.next, s.head, s.chain)
    && Threads(s.next, RestStart(s.pc), s.rest)
    && (s.pc.Unqueueing? ==> s.rest != [] && s.pc.following == After(s.rest, 0))
    && (forall i :: i in s.pushes ==> PushOk(s, i))
  }

  /** The poller holds one slot between unqueueing it and polling it. */
  predicate InHand(pc: Pc, i: nat) {
    pc.Polling? && pc.cursor == i
  }

  ghost predicate Counts(s: State)
    requires Sizes(s)
  {
    && (forall i :: 0 <= i < |s.wins| ==> s.wins[i] == s.clears[i] + if s.queued[i] then 1 else 0)
    && (forall i :: 0 <= i < |s.clears| ==> s.clears[i] == s.visits[i] + if InHand(s.pc, i) then 1 else 0)
    && s.left == |Live(s.live)|
    && (s.pc.Polling? ==> s.pc.cursor < |s.next|)
    && (forall i :: i in s.seen ==> i !in s.rest)
  }

  function Live(live: seq<bool>): set<nat> {
    set i: nat | i < |live| && live[i]
  }

  /**
   Woken work on the chain has a call to the parent coming, or the driver will poll, or is about to
   take the chain.
   */
  ghost predicate ParentOk(s: State) {
    && (!s.registered && s.pc != Entered ==> s.notified)
    && ((exists i :: i in s.chain && i in s.woken) ==>
          s.owed > 0 || s.notified || s.pc == Entered || s.pc == Registered)
  }

  ghost predicate Inv(s: State) {
    Sizes(s) && Placed(s) && Chains(s) && Counts(s) && ParentOk(s)
  }

  // ---------- Every step keeps the invariant ----------

  /** Links outside a chain do not matter to it. */
  lemma ThreadsFrame(next: seq<nat>, after: seq<nat>, first: nat, chain: seq<nat>)
    requires Threads(next, first, chain) && |next| <= |after|
    requires forall i :: i in chain && i < |next| ==> after[i] == next[i]
    ensures Threads(after, first, chain)
  {
    forall k | 0 <= k < |chain| ensures LinkAt(after, chain, k) {
      assert LinkAt(next, chain, k);
    }
  }

  lemma AddPlaces(s: State)
    requires Sizes(s) && Placed(s) && Enabled(s, Add)
    ensures Placed(DoAdd(s)) && Live(DoAdd(s).live) == Live(s.live) + {|s.live|}
  {
  }

  lemma AddKeeps(s: State)
    requires Inv(s) && Enabled(s, Add)
    ensures Inv(DoAdd(s))
  {
    var t := DoAdd(s);
    ThreadsFrame(s.next, t.next, s.head, s.chain);
    ThreadsFrame(s.next, t.next, RestStart(s.pc), s.rest);
    AddPlaces(s);
    forall i | i in t.pushes ensures PushOk(t, i) {
      if i != |s.next| { assert PushOk(s, i); }
    }
  }

  lemma WakePlaces(s: State, i: nat)
    requires Placed(s) && Enabled(s, Wake(i))
    ensures Placed(DoWake(s, i))
  {
  }

  lemma WakeKeeps(s: State, i: nat)
    requires Inv(s) && Enabled(s, Wake(i))
    ensures Inv(DoWake(s, i))
  {
    var t := DoWake(s, i);
    WakePlaces(s, i);
    forall j | j in t.pushes ensures PushOk(t, j) {
      if j != i { assert PushOk(s, j); }
    }
  }

  lemma LoadKeeps(s: State, i: nat)
    requires Inv(s) && Enabled(s, Load(i))
    ensures Inv(Do(s, Load(i)))
  {
    var t := Do(s, Load(i));
    forall j | j in t.pushes ensures PushOk(t, j) { assert PushOk(s, j); }
  }

  lemma StoreKeeps(s: State, i: nat)
    requires Inv(s) && Enabled(s, Store(i))
    ensures Inv(Do(s, Store(i)))
  {
    var t := Do(s, Store(i));
    ThreadsFrame(s.next, t.next, s.head, s.chain);
    ThreadsFrame(s.next, t.next, RestStart(s.pc), s.rest);
    forall j | j in t.pushes ensures PushOk(t, j) { assert PushOk(s, j); }
  }

  lemma LinkingKeepsPlaces(s: State, t: State, i: nat)
    requires Placed(s) && i in s.pushes
    requires t.chain == [i] + s.chain && t.pushes == s.pushes - {i} && t.rest == s.rest && t.queued == s.queued
    ensures Placed(t)
  {
    forall a, b | 0 <= a < b < |t.chain| ensures t.chain[a] != t.chain[b] {
      assert t.chain[b] == s.chain[b - 1];
      if a > 0 { assert t.chain[a] == s.chain[a - 1]; }
    }
  }

  /** The exchange publishes a link that was stored before it, so the longer chain is well threaded. */
  lemma LinkingThreads(next: seq<nat>, head: nat, chain: seq<nat>, i: nat)
    requires Threads(next, head, chain) && i < |next| && next[i] == head
    ensures Threads(next, i, [i] + chain)
  {
    var longer := [i] + chain;
    forall k | 0 <= k < |longer| ensures LinkAt(next, longer, k) {
      if k > 0 {
        assert LinkAt(next, chain, k - 1);
        assert longer[k] == chain[k - 1];
      }
    }
  }

  lemma CompareExchangeKeeps(s: State, i: nat)
    requires Inv(s) && Enabled(s, CompareExchange(i))
    ensures Inv(DoCompareExchange(s, i))
  {
    if s.head == s.pushes[i].seen { LinkingKeeps(s, i); } else { RetryKeeps(s, i); }
  }

  lemma RetryKeeps(s: State, i: nat)
    requires Inv(s) && Enabled(s, CompareExchange(i)) && s.head != s.pushes[i].seen
    ensures Inv(DoCompareExchange(s, i))
  {
    var t := DoCompareExchange(s, i);
    forall j | j in t.pushes ensures PushOk(t, j) { assert PushOk(s, j); }
  }

  lemma LinkingKeeps(s: State, i: nat)
    requires Inv(s) && Enabled(s, CompareExchange(i)) && s.head == s.pushes[i].seen
    ensures Inv(DoCompareExchange(s, i))
  {
    var t := DoCompareExchange(s, i);
    assert PushOk(s, i);
    LinkingKeepsPlaces(s, t, i);
    LinkingThreads(s.next, s.head, s.chain, i);
    LinkingIsAnswered(s, i);
    forall j | j in t.pushes ensures PushOk(t, j) { assert PushOk(s, j); }
  }

  lemma LinkingIsAnswered(s: State, i: nat)
    requires ParentOk(s) && Enabled(s, CompareExchange(i))
    ensures ParentOk(DoCompareExchange(s, i))
  {
  }

  /** Outside a walk nothing is left of a taken chain: a pass ends only when all of it was visited. */
  lemma NothingLeftToWalk(s: State)
    requires Inv(s) && RestStart(s.pc) == END
    ensures s.rest == []
  {
    assert s.rest != [] ==> LinkAt(s.next, s.rest, 0);
  }

  lemma TakeChainKeeps(s: State)
    requires Inv(s) && Enabled(s, TakeChain)
    ensures Inv(Do(s, TakeChain))
  {
    var t := Do(s, TakeChain);
    NothingLeftToWalk(s);
    forall j | j in t.pushes ensures PushOk(t, j) { assert PushOk(s, j); }
  }

  lemma ReadNextKeeps(s: State)
    requires Inv(s) && Enabled(s, ReadNext)
    ensures Inv(Do(s, ReadNext))
  {
    var t := Do(s, ReadNext);
    assert s.rest != [] && LinkAt(s.next, s.rest, 0);
    forall j | j in t.pushes ensures PushOk(t, j) { assert PushOk(s, j); }
  }

  lemma ClearQueuedKeeps(s: State)
    requires Inv(s) && Enabled(s, ClearQueued)
    ensures Inv(Do(s, ClearQueued))
  {
    var t := Do(s, ClearQueued);
    AtTheHead(s);
    ClearPlaces(s);
    forall k | 0 <= k < |t.rest| ensures LinkAt(t.next, t.rest, k) {
      assert LinkAt(s.next, s.rest, k + 1);
    }
    forall j | j in t.pushes ensures PushOk(t, j) { assert PushOk(s, j); }
  }

  /** The slot about to be unqueued heads what is left of the taken chain, and is nowhere else. */
  lemma AtTheHead(s: State)
    requires Placed(s) && Chains(s) && s.pc.Unqueueing?
    ensures s.rest != [] && s.rest == [s.pc.cursor] + s.rest[1..] && s.pc.cursor !in s.rest[1..]
    ensures s.pc.cursor !in s.chain && s.pc.cursor !in s.pushes
    ensures s.pc.following == After(s.rest, 0)
  {
    assert LinkAt(s.next, s.rest, 0);
  }

  lemma ClearPlaces(s: State)
    requires Sizes(s) && Placed(s) && Chains(s) && Enabled(s, ClearQueued)
    ensures Placed(Do(s, ClearQueued))
  {
    AtTheHead(s);
  }

  lemma PollTaskKeeps(s: State, finishes: bool)
    requires Inv(s) && Enabled(s, PollTask(finishes))
    ensures Inv(DoPollTask(s, finishes))
  {
    var t := DoPollTask(s, finishes);
    var c := s.pc.cursor;
    if s.live[c] && finishes {
      assert Live(t.live) == Live(s.live) - {c};
      DropElement(Live(s.live), c);
    }
    forall j | j in t.pushes ensures PushOk(t, j) { assert PushOk(s, j); }
  }

  lemma ParentStepKeeps(s: State, l: Label)
    requires Inv(s) && Enabled(s, l)
    requires l.WakeParent? || l.BeginPoll? || l.RegisterParent? || l.EndPoll?
    ensures Inv(Do(s, l))
  {
    var t := Do(s, l);
    forall j | j in t.pushes ensures PushOk(t, j) { assert PushOk(s, j); }
  }

  lemma StepKeeps(s: State, l: Label)
    requires Inv(s) && Enabled(s, l)
    ensures Inv(Do(s, l))
  {
    match l
    case Add => AddKeeps(s);
    case Wake(i) => WakeKeeps(s, i);
    case Load(i) => LoadKeeps(s, i);
    case Store(i) => StoreKeeps(s, i);
    case CompareExchange(i) => CompareExchangeKeeps(s, i);
    case TakeChain => TakeChainKeeps(s);
    case ReadNext => ReadNextKeeps(s);
    case ClearQueued => ClearQueuedKeeps(s);
    case PollTask(finishes) => PollTaskKeeps(s, finishes);
    case _ => ParentStepKeeps(s, l);
  }

  lemma RunsKeepInv(run: seq<State>)
    requires IsRun(Init, Next, run)
    ensures forall i :: 0 <= i < |run| ==> Inv(run[i])
  {
    forall s | Init(s) ensures Inv(s) { assert Live(s.live) == {}; }
    forall s, t | Inv(s) && Next(s, t) ensures Inv(t) {
      var l :| Enabled(s, l) && t == Do(s, l);
      StepKeeps(s, l);
    }
    Invariance(Init, Next, Inv, run);
  }

  // ---------- What every run guarantees ----------

  /** Both chains are acyclic and disjoint, name only entries, and hold with the pushes exactly the queued slots. */
  lemma ChainsAreSound(run: seq<State>, i: nat)
    requires IsRun(Init, Next, run) && i < |run|
    ensures Placed(run[i]) && Threads(run[i].next, run[i].head, run[i].chain)
    ensures Threads(run[i].next, RestStart(run[i].pc), run[i].rest)
    ensures run[i].left == |Live(run[i].live)|
    ensures RestStart(run[i].pc) == END ==> run[i].rest == []
  {
    RunsKeepInv(run);
    assert Inv(run[i]);
    if RestStart(run[i].pc) == END { NothingLeftToWalk(run[i]); }
  }

  /** The walk never meets a cursor without an entry, and unqueues no slot twice in one pass. */
  lemma WalkIsSafe(run: seq<State>, i: nat)
    requires IsRun(Init, Next, run) && i < |run|
    ensures run[i].pc.Walking? && run[i].pc.cursor != END ==> run[i].pc.cursor < |run[i].next|
    ensures run[i].pc.Unqueueing? ==> run[i].pc.cursor < |run[i].next| && run[i].pc.cursor !in run[i].seen
    ensures run[i].pc.Unqueueing? ==> run[i].next[run[i].pc.cursor] == run[i].pc.following
  {
    RunsKeepInv(run);
    var s := run[i];
    assert Inv(s);
    if (s.pc.Walking? && s.pc.cursor != END) || s.pc.Unqueueing? {
      assert s.rest != [] && LinkAt(s.next, s.rest, 0);
    }
  }

  /** A slot is unqueued once per time it was queued, and each unqueueing is followed by its visit. */
  lemma OnlyTheWokenAreVisited(run: seq<State>, i: nat, x: nat)
    requires IsRun(Init, Next, run) && i < |run| && x < |run[i].next|
    ensures Sizes(run[i])
    ensures run[i].visits[x] + (if InHand(run[i].pc, x) then 1 else 0) + (if run[i].queued[x] then 1 else 0)
            == run[i].wins[x]
  {
    RunsKeepInv(run);
    assert Inv(run[i]);
  }

  /** The step to `run[k]` takes the chain: the poller was registered and now walks. */
  ghost predicate Takes(run: seq<State>, k: int) {
    0 < k < |run| && run[k - 1].pc == Registered && run[k].pc.Walking?
  }

  /** The poller is between two passes: what it took last has been walked to the end. */
  predicate BetweenPasses(pc: Pc) {
    pc == Idle || pc == Entered || pc == Registered
  }

  /** How often `x` will have been visited once the pass under way has ended. */
  function Expected(s: State, x: nat): nat
    requires x < |s.visits|
  {
    s.visits[x] + (if InHand(s.pc, x) then 1 else 0) + (if x in s.rest then 1 else 0)
  }

  /** Between one taking of the chain and the next nobody changes what the pass will visit. */
  lemma PassIsSettled(s: State, l: Label, x: nat)
    requires Inv(s) && Enabled(s, l) && l != TakeChain && x < |s.visits|
    ensures x < |Do(s, l).visits| && Expected(Do(s, l), x) == Expected(s, x)
  {
    match l
    case ClearQueued => AtTheHead(s);
    case PollTask(_) =>
    case TakeChain =>
    case _ => OnlyTheWalkVisits(s, l);
  }

  lemma OnlyTheWalkVisits(s: State, l: Label)
    requires Sizes(s) && Enabled(s, l) && l != ClearQueued && !l.PollTask? && l != TakeChain
    ensures var t := Do(s, l);
            && t.rest == s.rest && |s.visits| <= |t.visits| && t.visits[..|s.visits|] == s.visits
            && (t.pc.Polling? <==> s.pc.Polling?) && (s.pc.Polling? ==> t.pc.cursor == s.pc.cursor)
  {
  }

  lemma StepInRun(run: seq<State>, j: nat) returns (l: Label)
    requires IsRun(Init, Next, run) && 0 < j < |run|
    ensures Inv(run[j - 1]) && Enabled(run[j - 1], l) && run[j] == Do(run[j - 1], l)
  {
    InvAt(run, j - 1);
    assert StepAt(Next, run, j);
    l :| Enabled(run[j - 1], l) && run[j] == Do(run[j - 1], l);
  }

  lemma TakingIsTheOnlyWayToWalk(run: seq<State>, k: int) returns (l: Label)
    requires IsRun(Init, Next, run) && 0 < k < |run|
    ensures Inv(run[k - 1]) && Enabled(run[k - 1], l) && run[k] == Do(run[k - 1], l)
    ensures l == TakeChain <==> Takes(run, k)
  {
    l := StepInRun(run, k);
  }

  lemma {:induction false} PassKeepsItsPromise(run: seq<State>, k: nat, j: nat, x: nat)
    requires IsRun(Init, Next, run) && Takes(run, k) && k <= j < |run| && x < |run[k - 1].visits|
    requires forall m :: k < m <= j ==> !Takes(run, m)
    ensures x < |run[j].visits|
    ensures Expected(run[j], x) == run[k - 1].visits[x] + if x in run[k - 1].chain then 1 else 0
    decreases j - k
  {
    var l := TakingIsTheOnlyWayToWalk(run, j);
    if k < j {
      assert !Takes(run, j);
      PassKeepsItsPromise(run, k, j - 1, x);
      PassIsSettled(run[j - 1], l, x);
    }
  }

  /**
   A pass visits exactly the chain it took, each slot once, whatever any number of wakers do
   meanwhile: they can neither add to the pass, nor take from it, nor cut it short.
   */
  lemma PassVisitsItsChain(run: seq<State>, k: nat, j: nat, x: nat)
    requires IsRun(Init, Next, run) && Takes(run, k) && k <= j < |run| && x < |run[k - 1].visits|
    requires (forall m :: k < m <= j ==> !Takes(run, m)) && BetweenPasses(run[j].pc)
    ensures x < |run[j].visits|
    ensures run[j].visits[x] == run[k - 1].visits[x] + if x in run[k - 1].chain then 1 else 0
  {
    PassKeepsItsPromise(run, k, j, x);
    InvAt(run, j);
    NothingLeftToWalk(run[j]);
  }

  /** A slot unqueued since then has been counted; no count ever goes down. */
  ghost predicate QueuedOrUnqueued(s: State, t: State, x: nat) {
    && x < |s.clears| && x < |t.clears| && x < |t.queued|
    && s.clears[x] <= t.clears[x] && (t.queued[x] || s.clears[x] < t.clears[x])
  }

  lemma {:induction false} QueuedUntilUnqueued(run: seq<State>, i: nat, j: nat, x: nat)
    requires IsRun(Init, Next, run) && i <= j < |run| && x < |run[i].queued| && run[i].queued[x]
    ensures QueuedOrUnqueued(run[i], run[j], x)
    decreases j - i
  {
    InvAt(run, i);
    if i < j {
      QueuedUntilUnqueued(run, i, j - 1, x);
      var l := StepInRun(run, j);
      StepUnqueuesByCounting(run[i], run[j - 1], l, x);
    }
  }

  lemma StepUnqueuesByCounting(from: State, s: State, l: Label, x: nat)
    requires Sizes(s) && Enabled(s, l) && QueuedOrUnqueued(from, s, x)
    ensures QueuedOrUnqueued(from, Do(s, l), x)
  {
  }

  /**
   Every wake is followed by a visit. If slot `x` is queued at `i`, then by the end of the first
   later pass whose taking of the chain does not overtake a push of `x` still under way, `x` has
   been visited after `i`.
   */
  lemma EveryWakeIsServed(run: seq<State>, i: nat, k: nat, j: nat, x: nat)
    requires IsRun(Init, Next, run) && i < k <= j < |run| && x < |run[i].queued| && run[i].queued[x]
    requires Takes(run, k) && x !in run[k - 1].pushes
    requires (forall m :: k < m <= j ==> !Takes(run, m)) && BetweenPasses(run[j].pc)
    ensures x < |run[i].visits| && x < |run[j].visits| && run[i].visits[x] < run[j].visits[x]
  {
    InvAt(run, i);
    InvAt(run, k - 1);
    QueuedUntilUnqueued(run, i, k - 1, x);
    NothingLeftToWalk(run[k - 1]);
    PassVisitsItsChain(run, k, j, x);
  }

  lemma InvAt(run: seq<State>, i: nat)
    requires IsRun(Init, Next, run) && i < |run|
    ensures Inv(run[i])
  {
    RunsKeepInv(run);
  }

  /** While a woken slot sits on the chain, its driver polls, will be told to, or is about to take the chain. */
  lemma WokenSetIsPolled(run: seq<State>, i: nat, x: nat)
    requires IsRun(Init, Next, run) && i < |run| && x in run[i].chain && x in run[i].woken
    ensures run[i].owed > 0 || run[i].notified || run[i].pc == Entered || run[i].pc == Registered
  {
    RunsKeepInv(run);
    assert Inv(run[i]);
  }

  /** Each pass is finite: nobody but the poller touches the taken chain, and every unqueueing shortens it. */
  lemma WalkShrinks(s: State, l: Label)
    requires Inv(s) && Enabled(s, l) && l != TakeChain
    ensures |Do(s, l).rest| == |s.rest| - if l == ClearQueued then 1 else 0
  {
    if l == ClearQueued { assert s.rest != []; }
  }
}
