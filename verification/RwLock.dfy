/**
 The state word of `RwLock` and its futures (src/sync.rs), one atomic operation or lock section
 per step. `readers` and `writer` are the guards that exist; the word is what the code keeps.
 The model assumes fewer than `WRITER - 1` readers.
 */
module RwLocks {
  import opened Common
  import opened Behaviours
  import opened WaitQueues
  import Waiters

  const WRITER: nat := 0xFFFF_FFFF_FFFF_FFFF

  /** A future's position: `seen` is what the try loop last observed, before its first load nothing. */
  datatype Pc = Idle | FirstTry(seen: Option<nat>) | Registering | SecondTry(seen: Option<nat>) | Acquired

  datatype Fut = Fut(shared: bool, pc: Pc)

  /** `broadcasts` counts releases whose `wake_all` has not run yet. */
  datatype State = State(word: nat, readers: nat, writer: bool, broadcasts: nat,
                         waiting: Waiters.Waiting, futs: map<nat, Fut>)

  datatype Label =
    | Create(f: nat, shared: bool)
    | StartPoll(f: nat)
    | Load(f: nat)
    | CompareExchange(f: nat)
    | Register(f: nat, id: nat)
    | Finish(f: nat)
    | Drop(f: nat)
    | TryRead
    | TryWrite
    | ReleaseRead
    | ReleaseWrite
    | WakeAll
    | Wake(w: WakerId)

  ghost predicate Trying(s: State, f: nat) {
    f in s.futs && (s.futs[f].pc.FirstTry? || s.futs[f].pc.SecondTry?)
  }

  ghost predicate Enabled(s: State, l: Label) {
    match l
    case Create(f, _) => f !in s.futs
    case StartPoll(f) => f in s.futs && s.futs[f].pc == Idle
    case Load(f) => Trying(s, f) && s.futs[f].shared && s.futs[f].pc.seen.None?
    case CompareExchange(f) => Trying(s, f) && (s.futs[f].shared ==> s.futs[f].pc.seen.Some? && s.word + 1 != WRITER)
    case Register(f, id) => f in s.futs && s.futs[f].pc == Registering && id !in s.waiting.queue.live
    case Finish(f) => f in s.futs && s.futs[f].pc == Acquired
    case Drop(f) => f in s.futs && s.futs[f].pc == Idle
    case TryRead => s.word != WRITER && s.word + 1 != WRITER
    case TryWrite => s.word == 0
    case ReleaseRead => s.readers > 0
    case ReleaseWrite => s.writer
    case WakeAll => s.broadcasts > 0
    case Wake(w) => w in s.waiting.wakes
  }

  function At(s: State, f: nat, pc: Pc): State
    requires f in s.futs
  {
    s.(futs := s.futs[f := s.futs[f].(pc := pc)])
  }

  /** The try loop gave up: the first failure registers, the second returns pending. */
  function Fail(s: State, f: nat): State
    requires f in s.futs
  {
    At(s, f, if s.futs[f].pc.FirstTry? then Registering else Idle)
  }

  /** One round of `try_read_raw` after a load, or the single exchange of `try_write_raw`. */
  function DoCompareExchange(s: State, f: nat): State
    requires f in s.futs && (s.futs[f].pc.FirstTry? || s.futs[f].pc.SecondTry?)
    requires s.futs[f].shared ==> s.futs[f].pc.seen.Some?
  {
    if s.futs[f].shared then
      var seen := s.futs[f].pc.seen.value;
      if seen == WRITER then Fail(s, f)
      else if s.word == seen then At(s.(word := s.word + 1, readers := s.readers + 1), f, Acquired)
      else At(s, f, s.futs[f].pc.(seen := Some(s.word)))
    else if s.word == 0 then At(s.(word := WRITER, writer := true), f, Acquired)
    else Fail(s, f)
  }

  /** `fetch_sub`; the last reader out owes a broadcast. */
  function DoReleaseRead(s: State): State
    requires s.readers > 0
  {
    s.(word := if s.word > 0 then s.word - 1 else WRITER, readers := s.readers - 1,
       broadcasts := s.broadcasts + if s.word == 1 then 1 else 0)
  }

  function Do(s: State, l: Label): State
    requires Enabled(s, l)
  {
    match l
    case Create(f, shared) => s.(futs := s.futs[f := Fut(shared, Idle)], waiting := Waiters.Create(s.waiting, f))
    case StartPoll(f) => At(s.(waiting := Waiters.StartPoll(s.waiting, f)), f, FirstTry(None))
    case Load(f) => At(s, f, s.futs[f].pc.(seen := Some(s.word)))
    case CompareExchange(f) => DoCompareExchange(s, f)
    case Register(f, id) => At(s.(waiting := Waiters.Register(s.waiting, f, id)), f, SecondTry(None))
    case Finish(f) => s.(futs := s.futs - {f}, waiting := Waiters.Leave(s.waiting, f))
    case Drop(f) => s.(futs := s.futs - {f}, waiting := Waiters.Leave(s.waiting, f))
    case TryRead => s.(word := s.word + 1, readers := s.readers + 1)
    case TryWrite => s.(word := WRITER, writer := true)
    case ReleaseRead => DoReleaseRead(s)
    case ReleaseWrite => s.(word := 0, writer := false, broadcasts := s.broadcasts + 1)
    case WakeAll => s.(broadcasts := s.broadcasts - 1, waiting := Waiters.WakeAll(s.waiting))
    case Wake(w) => s.(waiting := Waiters.Deliver(s.waiting, w))
  }

  ghost predicate Init(s: State) {
    s == State(0, 0, false, 0, Waiters.NOBODY, map[])
  }

  ghost predicate Next(s: State, t: State) {
    exists l :: Enabled(s, l) && t == Do(s, l)
  }

  /** The word says exactly which guards exist, and a writer excludes everyone. */
  ghost predicate WordOk(s: State) {
    && s.readers < WRITER
    && (s.writer ==> s.readers == 0 && s.word == WRITER)
    && (!s.writer ==> s.word == s.readers)
  }

  /** What refused the future is still true, or a broadcast that will reach it has not run. */
  ghost predicate Blocked(s: State, f: nat)
    requires f in s.futs
  {
    s.broadcasts > 0 || if s.futs[f].shared then s.writer else s.writer || s.readers > 0
  }

  /** A future that has seen itself refused since it registered is blocked for as long as it waits. */
  ghost predicate FutOk(s: State, f: nat)
    requires f in s.futs
  {
    var pc := s.futs[f].pc;
    && (pc == Idle || (pc.SecondTry? && pc.seen == Some(WRITER)) ==> Waiters.Waits(s.waiting, f) ==> Blocked(s, f))
    && (pc.SecondTry? || pc == Idle ==> f !in s.waiting.polling)
  }

  ghost predicate Inv(s: State) {
    && WordOk(s)
    && s.futs.Keys == s.waiting.regs.Keys
    && Waiters.Inv(s.waiting)
    && forall f :: f in s.futs ==> FutOk(s, f)
  }

  /** Guards come and go: every refusal that still matters is covered by a holder or a broadcast. */
  lemma GuardStepKeeps(s: State, l: Label)
    requires Inv(s) && Enabled(s, l)
    requires l.TryRead? || l.TryWrite? || l.ReleaseRead? || l.ReleaseWrite?
    ensures Inv(Do(s, l))
  {
    forall f | f in s.futs ensures FutOk(Do(s, l), f) {
      assert FutOk(s, f);
    }
  }

  /** One future moves on in its try loop, and perhaps the lock is taken. */
  lemma TryFrame(s: State, t: State, f: nat)
    requires Inv(s) && f in s.futs && t.futs.Keys == s.futs.Keys && t.waiting == s.waiting
             && t.broadcasts == s.broadcasts
    requires forall g :: g in s.futs && g != f ==> t.futs[g] == s.futs[g]
    requires (s.writer ==> t.writer) && s.readers <= t.readers
    requires FutOk(t, f)
    ensures forall g :: g in t.futs ==> FutOk(t, g)
  {
    forall g | g in t.futs ensures FutOk(t, g) {
      if g != f { assert FutOk(s, g); }
    }
  }

  lemma LoadKeeps(s: State, f: nat)
    requires Inv(s) && Enabled(s, Load(f))
    ensures Inv(Do(s, Load(f)))
  {
    assert FutOk(s, f);
    TryFrame(s, At(s, f, s.futs[f].pc.(seen := Some(s.word))), f);
  }

  lemma CompareExchangeKeeps(s: State, f: nat)
    requires Inv(s) && Enabled(s, CompareExchange(f))
    ensures Inv(DoCompareExchange(s, f))
  {
    assert FutOk(s, f);
    var t := DoCompareExchange(s, f);
    assert FutOk(t, f);
    TryFrame(s, t, f);
  }

  /** A step on the waiters that makes nobody else wait keeps everyone else's promise. */
  lemma WaitingFrame(s: State, t: State, f: nat)
    requires Inv(s) && f in t.futs && t.futs.Keys <= s.futs.Keys + {f}
    requires forall g :: g in t.futs && g != f ==> t.futs[g] == s.futs[g]
    requires t.broadcasts == s.broadcasts && t.readers == s.readers && t.writer == s.writer
    requires forall g :: g != f ==> Waiters.Waits(t.waiting, g) ==> Waiters.Waits(s.waiting, g)
    requires forall g :: g != f && g in t.waiting.polling ==> g in s.waiting.polling
    requires FutOk(t, f)
    ensures forall g :: g in t.futs ==> FutOk(t, g)
  {
    forall g | g in t.futs ensures FutOk(t, g) {
      if g != f { assert FutOk(s, g); }
    }
  }

  lemma CreateKeeps(s: State, f: nat, shared: bool)
    requires Inv(s) && Enabled(s, Create(f, shared))
    ensures Inv(Do(s, Create(f, shared)))
  {
    var t := s.(futs := s.futs[f := Fut(shared, Idle)], waiting := Waiters.Create(s.waiting, f));
    Waiters.QuietStepsKeep(s.waiting, f);
    assert forall g :: Waiters.Waits(t.waiting, g) ==> Waiters.Waits(s.waiting, g);
    WaitingFrame(s, t, f);
  }

  lemma StartPollKeeps(s: State, f: nat)
    requires Inv(s) && Enabled(s, StartPoll(f))
    ensures Inv(Do(s, StartPoll(f)))
  {
    var t := At(s.(waiting := Waiters.StartPoll(s.waiting, f)), f, FirstTry(None));
    Waiters.QuietStepsKeep(s.waiting, f);
    WaitingFrame(s, t, f);
  }

  lemma RegisterStepKeeps(s: State, f: nat, id: nat)
    requires Inv(s) && Enabled(s, Register(f, id))
    ensures Inv(Do(s, Register(f, id)))
  {
    var t := At(s.(waiting := Waiters.Register(s.waiting, f, id)), f, SecondTry(None));
    Waiters.RegisterKeeps(s.waiting, f, id);
    WaitingFrame(s, t, f);
  }

  lemma CloseStepKeeps(s: State, l: Label)
    requires Inv(s) && Enabled(s, l) && (l.Finish? || l.Drop?)
    ensures Inv(Do(s, l))
  {
    var t := Do(s, l);
    Waiters.LeaveKeeps(s.waiting, l.f);
    forall g | g in t.futs ensures FutOk(t, g) {
      assert FutOk(s, g);
    }
  }

  lemma WakeAllStepKeeps(s: State)
    requires Inv(s) && Enabled(s, WakeAll)
    ensures Inv(Do(s, WakeAll))
  {
    var t := s.(broadcasts := s.broadcasts - 1, waiting := Waiters.WakeAll(s.waiting));
    Waiters.WakeAllKeeps(s.waiting);
    forall g | g in t.futs ensures FutOk(t, g) {
      assert FutOk(s, g) && !Waiters.Waits(t.waiting, g);
    }
  }

  lemma DeliveryKeeps(s: State, w: WakerId)
    requires Inv(s) && Enabled(s, Wake(w))
    ensures Inv(Do(s, Wake(w)))
  {
    var t := s.(waiting := Waiters.Deliver(s.waiting, w));
    Waiters.QuietStepsKeep(s.waiting, w);
    forall g | g in t.futs ensures FutOk(t, g) {
      assert FutOk(s, g);
      assert Waiters.Waits(t.waiting, g) == Waiters.Waits(s.waiting, g);
    }
  }

  lemma StepKeeps(s: State, l: Label)
    requires Inv(s) && Enabled(s, l)
    ensures Inv(Do(s, l))
  {
    match l
    case Create(f, shared) => CreateKeeps(s, f, shared);
    case StartPoll(f) => StartPollKeeps(s, f);
    case Load(f) => LoadKeeps(s, f);
    case CompareExchange(f) => CompareExchangeKeeps(s, f);
    case Register(f, id) => RegisterStepKeeps(s, f, id);
    case Finish(_) => CloseStepKeeps(s, l);
    case Drop(_) => CloseStepKeeps(s, l);
    case WakeAll => WakeAllStepKeeps(s);
    case Wake(w) => DeliveryKeeps(s, w);
    case _ => GuardStepKeeps(s, l);
  }

  lemma RunsKeepInv(run: seq<State>)
    requires IsRun(Init, Next, run)
    ensures forall i :: 0 <= i < |run| ==> Inv(run[i])
  {
    forall s, t | Inv(s) && Next(s, t) ensures Inv(t) {
      var l :| Enabled(s, l) && t == Do(s, l);
      StepKeeps(s, l);
    }
    Invariance(Init, Next, Inv, run);
  }

  /** One writer and no reader, or any number of readers and no writer; the word counts them. */
  lemma MutualExclusion(run: seq<State>, i: nat)
    requires IsRun(Init, Next, run) && i < |run|
    ensures var s := run[i];
            if s.word == WRITER then s.writer && s.readers == 0 else !s.writer && s.word == s.readers
  {
    RunsKeepInv(run);
  }

  /**
   A future that returned pending and sleeps, with no wake on the way to it, is still queued, and
   either what refused it still holds the lock or a `wake_all` that will reach it is still to run.
   */
  lemma SleepersAreBlocked(run: seq<State>, i: nat, f: nat)
    requires IsRun(Init, Next, run) && i < |run|
    requires f in run[i].futs && run[i].futs[f].pc == Idle
    requires f in run[i].waiting.regs && run[i].waiting.regs[f].Some?
    requires f !in run[i].waiting.scheduled && f !in run[i].waiting.wakes
    ensures Waiters.Waits(run[i].waiting, f)
    ensures run[i].broadcasts > 0 || run[i].writer || (!run[i].futs[f].shared && run[i].readers > 0)
  {
    RunsKeepInv(run);
    assert Inv(run[i]) && FutOk(run[i], f);
    assert Waiters.Owns(run[i].waiting.regs, f, run[i].waiting.regs[f].value);
  }

  // ---------- The objects ----------

  /** Whether the word as it stands refuses a lock of this kind. */
  predicate Refuses(word: nat, shared: bool) {
    if shared then word == WRITER else word != 0
  }

  /** A whole poll with nobody in between. */
  function PollAlone(s: State, f: nat, id: nat): State
    requires f in s.futs && f in s.waiting.regs
  {
    if Refuses(s.word, s.futs[f].shared) then
      s.(waiting := Waiters.Register(Waiters.StartPoll(s.waiting, f), f, id))
    else
      s.(futs := s.futs - {f}, waiting := Waiters.Leave(s.waiting, f),
         word := if s.futs[f].shared then s.word + 1 else WRITER,
         readers := s.readers + (if s.futs[f].shared then 1 else 0), writer := s.writer || !s.futs[f].shared)
  }

  /** One try loop run alone: a load for a reader, then one exchange. */
  function TryAlone(s: State, f: nat): State
    requires Trying(s, f) && s.futs[f].pc.seen.None?
    requires s.futs[f].shared ==> s.word + 1 != WRITER
  {
    if s.futs[f].shared then Do(Do(s, Load(f)), CompareExchange(f)) else Do(s, CompareExchange(f))
  }

  /** Run back to back, the protocol's steps for one poll are one whole call of the object. */
  lemma PollIsItsSteps(s: State, f: nat, id: nat)
    requires Inv(s) && Enabled(s, StartPoll(f)) && id !in s.waiting.queue.live
    requires s.futs[f].shared ==> s.word + 1 != WRITER
    ensures var tried := TryAlone(Do(s, StartPoll(f)), f);
            PollAlone(s, f, id) == if tried.futs[f].pc == Acquired then Do(tried, Finish(f))
                                   else TryAlone(Do(tried, Register(f, id)), f)
  {
    var t := Do(s, StartPoll(f));
    assert t.futs[f] == Fut(s.futs[f].shared, FirstTry(None));
    var tried := TryAlone(t, f);
    if tried.futs[f].pc == Acquired {
      assert tried.futs - {f} == s.futs - {f};
      assert Waiters.Leave(tried.waiting, f) == Waiters.Leave(s.waiting, f);
    } else {
      var parked := Do(tried, Register(f, id));
      assert TryAlone(parked, f).futs == s.futs;
    }
  }

  /**
   The rounds of one try of a reader after its load: other threads make the word `found[0]`, then the
   exchange fails or is retried.
   */
  ghost function Rounds(s: State, f: nat, found: seq<nat>): State
    decreases |found|
  {
    if !(Trying(s, f) && s.futs[f].shared && s.futs[f].pc.seen.Some?) then s
    else if found == [] || s.futs[f].pc.seen == Some(WRITER) then
      if Enabled(s, CompareExchange(f)) then Do(s, CompareExchange(f)) else s
    else
      var u := s.(word := found[0]);
      Rounds(if Some(found[0]) == s.futs[f].pc.seen || !Enabled(u, CompareExchange(f)) then u
          else Do(u, CompareExchange(f)), f, found[1..])
  }

  /** What `RwLock.TryRead` promises, of a try that has seen `seen`: it succeeds unless it has seen a writer. */
  ghost predicate Ends(t: State, f: nat, seen: seq<nat>)
    requires seen != []
  {
    && f in t.futs
    && (t.futs[f].pc == Acquired <==> WRITER !in seen)
    && t.word == if WRITER in seen then WRITER else seen[|seen| - 1] + 1
  }

  lemma {:induction false} RoundsEnd(s: State, f: nat, found: seq<nat>)
    requires Trying(s, f) && s.futs[f].shared && s.futs[f].pc.seen == Some(s.word)
    requires forall v :: v in [s.word] + found ==> v + 1 != WRITER
    ensures Ends(Rounds(s, f, found), f, [s.word] + found)
    decreases |found|
  {
    assert s.word in [s.word] + found;
    if found != [] && s.word != WRITER {
      var u := s.(word := found[0]);
      assert found[0] in [s.word] + found;
      var next := if found[0] == s.word then u else Do(u, CompareExchange(f));
      assert Rounds(s, f, found) == Rounds(next, f, found[1..]);
      assert found == [found[0]] + found[1..];
      forall v | v in [found[0]] + found[1..] ensures v + 1 != WRITER { assert v in [s.word] + found; }
      RoundsEnd(next, f, found[1..]);
    }
  }

  /**
   The loads and exchanges of one try of a reader, under whatever its failing exchanges find, are
   `RwLock.TryRead`.
   */
  lemma TryReadIsItsSteps(s: State, f: nat, found: seq<nat>)
    requires Enabled(s, Load(f)) && forall v :: v in [s.word] + found ==> v + 1 != WRITER
    ensures Ends(Rounds(Do(s, Load(f)), f, found), f, [s.word] + found)
  {
    RoundsEnd(Do(s, Load(f)), f, found);
  }

  class RwLock {
    var word: nat
    const waiters: WaitQueue

    ghost predicate Mirrors(s: State)
      reads this, waiters
    {
      waiters.Valid() && word == s.word && waiters.View() == s.waiting.queue
    }

    constructor ()
      ensures fresh(waiters) && Mirrors(State(0, 0, false, 0, Waiters.NOBODY, map[]))
    {
      word := 0;
      waiters := new WaitQueue();
    }

    /**
     `try_read_raw`'s retry loop. `found` is what the failing exchanges find in the word, one after
     the other; with none the call runs alone. It gives up only on a writer it has seen.
     */
    method TryRead(found: seq<nat>) returns (taken: bool)
      modifies this`word
      ensures taken <==> WRITER !in [old(word)] + found
      ensures word == if taken then ([old(word)] + found)[|found|] + 1 else WRITER
    {
      ghost var seen := [word] + found;
      var current, round := word, 0;
      while true
        invariant 0 <= round <= |found| && current == word == seen[round] && WRITER !in seen[..round]
        decreases |found| - round
      {
        assert seen[..round + 1] == seen[..round] + [current];
        if current == WRITER {
          assert seen[round] in seen;
          return false;
        }
        if round == |found| {
          word := current + 1;
          assert seen[..round + 1] == seen;
          return true;
        }
        word := found[round];
        current := word;
        round := round + 1;
      }
    }

    /** The single exchange of `try_write_raw`. */
    method TryWrite() returns (taken: bool)
      modifies this`word
      ensures taken == (old(word) == 0)
      ensures word == if taken then WRITER else old(word)
    {
      taken := word == 0;
      if taken { word := WRITER; }
    }

    /** Either, run alone. */
    method Try(shared: bool) returns (taken: bool)
      modifies this`word
      ensures taken == !Refuses(old(word), shared) == if shared then old(word) != WRITER else old(word) == 0
      ensures word == if !taken then old(word) else if shared then old(word) + 1 else WRITER
    {
      if shared { taken := TryRead([]); } else { taken := TryWrite(); }
    }

    method ReleaseRead(ghost s: State) returns (wakes: seq<WakerId>)
      requires Mirrors(s) && WordOk(s) && s.readers > 0
      modifies this`word, waiters
      ensures var t := DoReleaseRead(s);
              if s.readers > 1 then Mirrors(t) && t.broadcasts == s.broadcasts && wakes == []
              else Mirrors(t.(broadcasts := s.broadcasts, waiting := Waiters.WakeAll(s.waiting)))
                   && wakes == WakersOf(s.waiting.queue.fifo, s.waiting.queue.live)
      ensures word == old(word) - 1
    {
      word := word - 1;
      wakes := [];
      ghost var rank;
      if word == 0 { wakes, rank := waiters.GrantAll(); }
    }

    method ReleaseWrite(ghost s: State) returns (wakes: seq<WakerId>)
      requires Mirrors(s)
      modifies this`word, waiters
      ensures Mirrors(s.(word := 0, writer := false, waiting := Waiters.WakeAll(s.waiting)))
      ensures wakes == WakersOf(s.waiting.queue.fifo, s.waiting.queue.live)
    {
      word := 0;
      ghost var rank;
      wakes, rank := waiters.GrantAll();
    }
  }

  /** The future of `read` or `write`, for task `f`. */
  class Lock {
    const lock: RwLock
    const shared: bool
    var registration: Option<nat>

    ghost predicate Mirrors(s: State, f: nat)
      reads this, lock, lock.waiters
    {
      && lock.Mirrors(s) && f in s.futs && f in s.waiting.regs
      && s.futs[f].shared == shared && s.waiting.regs[f] == registration
      && (registration.Some? ==> registration.value in s.waiting.queue.live)
    }

    constructor (lock: RwLock, shared: bool)
      ensures this.lock == lock && this.shared == shared && registration == None
    {
      this.lock := lock;
      this.shared := shared;
      registration := None;
    }

    method Poll(ghost s: State, f: nat) returns (acquired: bool)
      requires Mirrors(s, f)
      modifies this`registration, lock`word, lock.waiters
      ensures acquired == !Refuses(s.word, shared)
      ensures acquired ==> registration == None && lock.Mirrors(PollAlone(s, f, 0))
      ensures !acquired ==> registration.Some?
      ensures !acquired ==> registration == s.waiting.regs[f] || registration.value !in s.waiting.queue.live
      ensures !acquired ==> Mirrors(PollAlone(s, f, registration.value), f)
      ensures acquired <==> if shared then old(lock.word) != WRITER else old(lock.word) == 0
      ensures lock.word == if !acquired then old(lock.word) else if shared then old(lock.word) + 1 else WRITER
      ensures !acquired ==> registration.value in lock.waiters.View().live
                            && lock.waiters.View().live[registration.value] == Registration(Queued, Some(f))
    {
      acquired := lock.Try(shared);
      if acquired {
        var removed := lock.waiters.Remove(registration);
        registration := None;
        return;
      }
      var id, replaced := lock.waiters.Register(registration, Some(f));
      registration := Some(id);
      acquired := lock.Try(shared);
    }

    /** Dropped before it completed. */
    method Drop(ghost s: State, ghost f: nat)
      requires Mirrors(s, f)
      modifies this`registration, lock.waiters
      ensures registration == None
      ensures lock.Mirrors(s.(futs := s.futs - {f}, waiting := Waiters.Leave(s.waiting, f)))
    {
      var removed := lock.waiters.Remove(registration);
      registration := None;
    }
  }
}
