/**
 `Semaphore` at the granularity of single atomics (src/sync.rs): the two tries of a poll, its
 registration and its removal are separate steps, and so are the removal, the look at the permits
 and the wake of a drop. Here a wake can be lost, and this module says exactly when.
 */
module SemaphoreSteps {
  import opened Common
  import opened Behaviours
  import opened WaitQueues
  import Waiters
  import Semaphores

  /**
   A future's position: `seen` is what the try loop last observed; `Leaving` has its permit and is
   still registered.
   */
  datatype Pc = Idle | FirstTry(seen: Option<nat>) | MustRegister | SecondTry(seen: Option<nat>) | Leaving

  /**
   `owed` counts calls of `wake_one` still to run, `checking` the drops that gave up a grant and have
   not looked at the permits yet.
   */
  datatype State = State(permits: nat, held: nat, forgotten: nat, created: nat, owed: nat, checking: nat,
                         waiting: Waiters.Waiting, futs: map<nat, Pc>)

  datatype Label =
    | Create(f: nat)
    | StartPoll(f: nat)
    | Load(f: nat)
    | Exchange(f: nat)
    | Register(f: nat, id: nat)
    | Remove(f: nat)
    | Drop(f: nat)
    | CheckPermits
    | TryAcquire
    | Release
    | Forget
    | AddPermits(n: nat)
    | WakeOne
    | Wake(w: WakerId)

  predicate Trying(pc: Pc) {
    pc.FirstTry? || pc.SecondTry?
  }

  ghost predicate Enabled(s: State, l: Label) {
    match l
    case Create(f) => f !in s.futs
    case StartPoll(f) => f in s.futs && s.futs[f] == Idle
    case Load(f) => f in s.futs && Trying(s.futs[f]) && s.futs[f].seen.None?
    case Exchange(f) => f in s.futs && Trying(s.futs[f]) && s.futs[f].seen.Some?
    case Register(f, id) => f in s.futs && s.futs[f] == MustRegister && id !in s.waiting.queue.live
    case Remove(f) => f in s.futs && s.futs[f] == Leaving
    case Drop(f) => f in s.futs && s.futs[f] == Idle
    case CheckPermits => s.checking > 0
    case TryAcquire => s.permits > 0
    case Release => s.held > 0
    case Forget => s.held > 0
    case AddPermits(_) => true
    case WakeOne => s.owed > 0
    case Wake(w) => w in s.waiting.wakes
  }

  /** The try loop of `f` has observed `v`: none left ends the try, otherwise an exchange comes next. */
  function Observed(s: State, f: nat, v: nat): State
    requires f in s.futs && Trying(s.futs[f])
  {
    var pc := s.futs[f];
    s.(futs := s.futs[f := if v > 0 then pc.(seen := Some(v)) else if pc.FirstTry? then MustRegister else Idle])
  }

  function DoExchange(s: State, f: nat): State
    requires f in s.futs && Trying(s.futs[f]) && s.futs[f].seen.Some?
  {
    if s.permits > 0 && s.permits == s.futs[f].seen.value then
      s.(permits := s.permits - 1, held := s.held + 1, futs := s.futs[f := Leaving])
    else Observed(s, f, s.permits)
  }

  function DoDrop(s: State, f: nat): State {
    s.(waiting := Waiters.Leave(s.waiting, f), futs := s.futs - {f},
       checking := s.checking + if Waiters.KindOf(s.waiting, f) == Some(One) then 1 else 0)
  }

  function Do(s: State, l: Label): State
    requires Enabled(s, l)
  {
    match l
    case Create(f) => s.(waiting := Waiters.Create(s.waiting, f), futs := s.futs[f := Idle])
    case StartPoll(f) => s.(waiting := Waiters.StartPoll(s.waiting, f), futs := s.futs[f := FirstTry(None)])
    case Load(f) => Observed(s, f, s.permits)
    case Exchange(f) => DoExchange(s, f)
    case Register(f, id) =>
      s.(waiting := Waiters.Register(s.waiting, f, id), futs := s.futs[f := SecondTry(None)])
    case Remove(f) => s.(waiting := Waiters.Leave(s.waiting, f), futs := s.futs - {f})
    case Drop(f) => DoDrop(s, f)
    case CheckPermits => s.(checking := s.checking - 1, owed := s.owed + if s.permits > 0 then 1 else 0)
    case TryAcquire => s.(permits := s.permits - 1, held := s.held + 1)
    case Release => s.(permits := s.permits + 1, held := s.held - 1, owed := s.owed + 1)
    case Forget => s.(held := s.held - 1, forgotten := s.forgotten + 1)
    case AddPermits(n) => s.(permits := s.permits + n, created := s.created + n, owed := s.owed + n)
    case WakeOne => s.(owed := s.owed - 1, waiting := Waiters.WakeOne(s.waiting))
    case Wake(w) => s.(waiting := Waiters.Deliver(s.waiting, w))
  }

  ghost predicate Init(s: State) {
    s == State(s.created, 0, 0, s.created, 0, 0, Waiters.NOBODY, map[])
  }

  ghost predicate Next(s: State, t: State) {
    exists l :: Enabled(s, l) && t == Do(s, l)
  }

  ghost predicate Inv(s: State) {
    && s.permits + s.held + s.forgotten == s.created
    && Waiters.Inv(s.waiting)
    && s.futs.Keys == s.waiting.regs.Keys
  }

  lemma StepKeeps(s: State, l: Label)
    requires Inv(s) && Enabled(s, l)
    ensures Inv(Do(s, l))
  {
    match l
    case Create(f) => Waiters.QuietStepsKeep(s.waiting, f);
    case StartPoll(f) => Waiters.QuietStepsKeep(s.waiting, f);
    case Register(f, id) => Waiters.RegisterKeeps(s.waiting, f, id);
    case Remove(f) => Waiters.LeaveKeeps(s.waiting, f);
    case Drop(f) => Waiters.LeaveKeeps(s.waiting, f);
    case WakeOne => Waiters.WakeOneKeeps(s.waiting);
    case Wake(w) => Waiters.QuietStepsKeep(s.waiting, w);
    case _ =>
  }

  lemma InvAt(run: seq<State>, i: nat)
    requires IsRun(Init, Next, run) && i < |run|
    ensures Inv(run[i])
  {
    forall s, t | Inv(s) && Next(s, t) ensures Inv(t) {
      var l :| Enabled(s, l) && t == Do(s, l);
      StepKeeps(s, l);
    }
    Invariance(Init, Next, Inv, run);
  }

  // ---------- Who answers for a free permit ----------

  /** `a` waits in front of `b`. */
  ghost predicate Before(fifo: seq<nat>, a: nat, b: nat) {
    exists i, j :: 0 <= i < j < |fifo| && fifo[i] == a && fifo[j] == b
  }

  ghost predicate Behind(w: Waiters.Waiting, g: nat, f: nat) {
    var a, b := Waiters.TokenOf(w, g), Waiters.TokenOf(w, f);
    a.Some? && b.Some? && Before(w.queue.fifo, a.value, b.value)
  }

  /** `g` waits and, unless somebody wakes it, has nothing left to do but sleep or find out again. */
  ghost predicate Settled(s: State, g: nat) {
    g in s.futs && (s.futs[g] == Idle || s.futs[g].FirstTry?) && Waiters.Waits(s.waiting, g)
  }

  ghost function GrantsIn(w: Waiters.Waiting, futs: map<nat, Pc>): set<nat> {
    set f | f in futs && futs[f] != Leaving && Waiters.KindOf(w, f) == Some(One)
  }

  ghost function LaterTriesIn(w: Waiters.Waiting, futs: map<nat, Pc>, g: nat): set<nat> {
    set f | f in futs && futs[f].SecondTry? && Behind(w, g, f)
  }

  /** Grants in the hands of futures that will still try. */
  ghost function Grants(s: State): set<nat> {
    GrantsIn(s.waiting, s.futs)
  }

  /** Futures that registered after `g` and are still to try once more. */
  ghost function LaterTries(s: State, g: nat): set<nat> {
    LaterTriesIn(s.waiting, s.futs, g)
  }

  ghost function Cover(s: State, g: nat): nat {
    |Grants(s)| + |LaterTries(s, g)| + s.owed + s.checking
  }

  /** Every free permit has somebody that will look for it on behalf of `g`. */
  ghost predicate CoveredFor(s: State, g: nat) {
    s.permits <= Cover(s, g)
  }

  ghost predicate Covered(s: State) {
    forall g :: Settled(s, g) ==> CoveredFor(s, g)
  }

  /** The next grant would land on a future that has its permit already and is about to leave. */
  ghost predicate HeadIsLeaving(s: State) {
    && s.waiting.queue.fifo != []
    && exists h :: h in s.futs && s.futs[h] == Leaving && Waiters.TokenOf(s.waiting, h) == Some(s.waiting.queue.fifo[0])
  }

  /** And some settled waiter has no grant, try or wake to spare. */
  ghost predicate Misdirects(s: State) {
    HeadIsLeaving(s) && exists g :: Settled(s, g) && s.permits == Cover(s, g)
  }

  // ---------- Order and counts ----------

  lemma BeforeAppend(fifo: seq<nat>, x: nat, a: nat, b: nat)
    ensures Before(fifo, a, b) ==> Before(fifo + [x], a, b)
    ensures a in fifo ==> Before(fifo + [x], a, x)
  {
    var longer := fifo + [x];
    if Before(fifo, a, b) {
      var i, j :| 0 <= i < j < |fifo| && fifo[i] == a && fifo[j] == b;
      assert longer[i] == a && longer[j] == b;
    }
    if a in fifo {
      var i :| 0 <= i < |fifo| && fifo[i] == a;
      assert longer[i] == a && longer[|fifo|] == x;
    }
  }

  /** Granting the head leaves the order of the others alone. */
  lemma BeforeTail(fifo: seq<nat>, a: nat, b: nat)
    requires fifo != [] && Distinct(fifo) && a != fifo[0]
    ensures Before(fifo[1..], a, b) <==> Before(fifo, a, b)
  {
    var rest := fifo[1..];
    if Before(fifo, a, b) {
      var i, j :| 0 <= i < j < |fifo| && fifo[i] == a && fifo[j] == b;
      assert rest[i - 1] == a && rest[j - 1] == b;
    }
    if Before(rest, a, b) {
      var i, j :| 0 <= i < j < |rest| && rest[i] == a && rest[j] == b;
      assert fifo[i + 1] == a && fifo[j + 1] == b;
    }
  }

  lemma BeforeWithout(fifo: seq<nat>, x: nat, a: nat, b: nat)
    requires Distinct(fifo) && a != x && b != x && Before(fifo, a, b)
    ensures Before(Without(fifo, x), a, b)
  {
    var i, j :| 0 <= i < j < |fifo| && fifo[i] == a && fifo[j] == b;
    var i', j' := RemoveKeepsOrder(fifo, x, i, j);
  }

  lemma Subset(a: set<nat>, b: set<nat>)
    requires a <= b
    ensures |a| <= |b|
  {
    var rest := b - a;
    assert b == a + rest;
  }

  /** A waiting future's slot is in the FIFO, and a granted one's is not. */
  lemma KindsAndPlaces(w: Waiters.Waiting, f: nat)
    requires Waiters.Inv(w)
    ensures Waiters.Waits(w, f) <==> Waiters.TokenOf(w, f).Some? && Waiters.TokenOf(w, f).value in w.queue.fifo
    ensures forall g :: Behind(w, g, f) ==> Waiters.KindOf(w, f) == Some(Queued)
  {
    if Waiters.TokenOf(w, f).Some? { assert Waiters.Owns(w.regs, f, w.regs[f].value); }
  }

  /** Two futures never hold the same slot. */
  lemma OwnSlot(w: Waiters.Waiting, f: nat, g: nat)
    requires Waiters.Inv(w) && f != g && Waiters.TokenOf(w, f).Some? && Waiters.TokenOf(w, g).Some?
    ensures Waiters.TokenOf(w, f) != Waiters.TokenOf(w, g)
  {
    assert Waiters.Owns(w.regs, f, w.regs[f].value) && Waiters.Owns(w.regs, g, w.regs[g].value);
  }

  /** More grants, more tries behind `g` and no fewer wakes cover no fewer permits. */
  lemma CoverGrows(s: State, t: State, g: nat)
    requires CoveredFor(s, g)
    requires Grants(s) <= Grants(t) && LaterTries(s, g) <= LaterTries(t, g)
    requires t.permits + s.owed + s.checking <= s.permits + t.owed + t.checking
    ensures CoveredFor(t, g)
  {
    Subset(Grants(s), Grants(t));
    Subset(LaterTries(s, g), LaterTries(t, g));
  }

  // ---------- Every step but one keeps every free permit answered for ----------

  lemma AccountStepCovers(s: State, l: Label)
    requires Inv(s) && Covered(s) && Enabled(s, l)
    requires l.CheckPermits? || l.TryAcquire? || l.Release? || l.Forget? || l.AddPermits?
    ensures Covered(Do(s, l))
  {
    var t := Do(s, l);
    forall g | Settled(t, g) ensures CoveredFor(t, g) {
      assert Settled(s, g);
    }
  }

  lemma SamePlaces(s: State, t: State, g: nat)
    requires t.waiting.queue == s.waiting.queue && s.futs.Keys <= t.futs.Keys
    requires forall f :: f in s.futs ==> Waiters.TokenOf(t.waiting, f) == Waiters.TokenOf(s.waiting, f)
    requires forall f :: f in s.futs ==> (s.futs[f].SecondTry? ==> t.futs[f].SecondTry?)
    requires forall f :: f in s.futs ==> (t.futs[f] == Leaving ==> s.futs[f] == Leaving)
    requires g in s.futs
    ensures Grants(s) <= Grants(t) && LaterTries(s, g) <= LaterTries(t, g)
  {
  }

  lemma QuietStepCovers(s: State, l: Label)
    requires Inv(s) && Covered(s) && Enabled(s, l) && (l.Create? || l.StartPoll? || l.Wake?)
    ensures Covered(Do(s, l))
  {
    var t := Do(s, l);
    assert t.waiting.queue == s.waiting.queue;
    assert forall f :: f in s.futs ==> Waiters.TokenOf(t.waiting, f) == Waiters.TokenOf(s.waiting, f);
    assert forall f :: f in t.futs && f !in s.futs ==> Waiters.TokenOf(t.waiting, f) == None;
    forall g | Settled(t, g) ensures CoveredFor(t, g) {
      assert Settled(s, g) && CoveredFor(s, g);
      SamePlaces(s, t, g);
      CoverGrows(s, t, g);
    }
  }

  /** Another look at the permits, and nothing else, changes nobody's part. */
  lemma LookShifts(w: Waiters.Waiting, futs: map<nat, Pc>, f: nat, pc: Pc, g: nat)
    requires f in futs && Trying(futs[f]) && Trying(pc) && pc.FirstTry? == futs[f].FirstTry?
    ensures GrantsIn(w, futs[f := pc]) == GrantsIn(w, futs)
    ensures LaterTriesIn(w, futs[f := pc], g) == LaterTriesIn(w, futs, g)
  {
  }

  /** A try that finds nothing has seen that there is no free permit at all. */
  lemma ObservationCovers(s: State, f: nat)
    requires Inv(s) && Covered(s) && f in s.futs && Trying(s.futs[f])
    ensures Covered(Observed(s, f, s.permits))
  {
    var t := Observed(s, f, s.permits);
    if s.permits > 0 {
      forall g | Settled(t, g) ensures CoveredFor(t, g) {
        assert Settled(s, g);
        LookShifts(s.waiting, s.futs, f, t.futs[f], g);
      }
    }
  }

  lemma TakingShifts(w: Waiters.Waiting, futs: map<nat, Pc>, f: nat, g: nat)
    requires Waiters.Inv(w)
    ensures GrantsIn(w, futs[f := Leaving]) == GrantsIn(w, futs) - {f}
    ensures LaterTriesIn(w, futs[f := Leaving], g) == LaterTriesIn(w, futs, g) - {f}
    ensures !(f in GrantsIn(w, futs) && f in LaterTriesIn(w, futs, g))
  {
    KindsAndPlaces(w, f);
  }

  /** A try that takes a permit was at most one of those that answered for it. */
  lemma TakingCovers(s: State, f: nat)
    requires Inv(s) && Covered(s) && Enabled(s, Exchange(f)) && s.permits > 0 && s.permits == s.futs[f].seen.value
    ensures Covered(DoExchange(s, f))
  {
    var t := DoExchange(s, f);
    forall g | Settled(t, g) ensures CoveredFor(t, g) {
      assert Settled(s, g) && CoveredFor(s, g);
      TakingShifts(s.waiting, s.futs, f, g);
      DropElement(Grants(s), f);
      DropElement(LaterTries(s, g), f);
    }
  }

  /** A grant that `register` discards is replaced by a try behind everybody who is settled. */
  lemma RegisterCovers(s: State, f: nat, id: nat)
    requires Inv(s) && Covered(s) && Enabled(s, Register(f, id))
    ensures Covered(Do(s, Register(f, id)))
  {
    var t := Do(s, Register(f, id));
    Waiters.RegisterKeeps(s.waiting, f, id);
    forall g | Settled(t, g) ensures CoveredFor(t, g) {
      assert Settled(s, g) && g != f && CoveredFor(s, g);
      RegisterShifts(s, f, id, g);
      TradedCover(Grants(s), LaterTries(s, g), Grants(t), LaterTries(t, g), f);
    }
  }

  /** Giving up one grant for one try loses nothing. */
  lemma TradedCover(grants: set<nat>, tries: set<nat>, grants': set<nat>, tries': set<nat>, f: nat)
    requires grants' == grants - {f} && tries <= tries' && f !in tries && (f in grants ==> f in tries')
    ensures |grants| + |tries| <= |grants'| + |tries'|
  {
    DropElement(grants, f);
    if f in grants {
      AddElement(tries, f);
      Subset(tries + {f}, tries');
    } else {
      Subset(tries, tries');
    }
  }

  /** To everybody but the one who registers, a registration only appends. */
  lemma RegisterOthers(w: Waiters.Waiting, f: nat, id: nat, g: nat, h: nat)
    requires Waiters.Inv(w) && f in w.regs && id !in w.queue.live && g != f && h != f
    ensures var u := Waiters.Register(w, f, id);
            && Waiters.KindOf(u, h) == Waiters.KindOf(w, h)
            && (Behind(w, g, h) ==> Behind(u, g, h))
  {
    var u := Waiters.Register(w, f, id);
    var slot := Waiters.TokenOf(u, f).value;
    if Waiters.TokenOf(w, h).Some? {
      assert Waiters.Owns(w.regs, h, w.regs[h].value);
      if Waiters.TokenOf(w, f).Some? { OwnSlot(w, f, h); }
    }
    if Behind(w, g, h) { BeforeAppend(w.queue.fifo, slot, w.regs[g].value, w.regs[h].value); }
  }

  /** Whoever registers without waiting in the queue already joins behind everybody who waits. */
  lemma RegisterJoinsBehind(w: Waiters.Waiting, f: nat, id: nat, g: nat)
    requires Waiters.Inv(w) && f in w.regs && id !in w.queue.live && g != f
    requires Waiters.Waits(w, g) && !Waiters.Waits(w, f)
    ensures Behind(Waiters.Register(w, f, id), g, f)
  {
    var u := Waiters.Register(w, f, id);
    KindsAndPlaces(w, g);
    KindsAndPlaces(w, f);
    if w.regs[f].Some? { assert Waiters.Owns(w.regs, f, w.regs[f].value); }
    BeforeAppend(w.queue.fifo, Waiters.TokenOf(u, f).value, w.regs[g].value, w.regs[g].value);
  }

  lemma RegisterShifts(s: State, f: nat, id: nat, g: nat)
    requires Inv(s) && Enabled(s, Register(f, id)) && Settled(s, g) && g != f
    ensures var w, futs := Waiters.Register(s.waiting, f, id), s.futs[f := SecondTry(None)];
            && GrantsIn(w, futs) == Grants(s) - {f}
            && LaterTries(s, g) <= LaterTriesIn(w, futs, g)
            && f !in LaterTries(s, g)
            && (f in Grants(s) ==> f in LaterTriesIn(w, futs, g))
  {
    var w := Waiters.Register(s.waiting, f, id);
    Waiters.RegisterKeeps(s.waiting, f, id);
    OthersShift(s, w, f, id, g);
    if f in Grants(s) { RegisterJoinsBehind(s.waiting, f, id, g); }
    KindsOnly(s.waiting, w, s.futs, f);
    assert LaterTries(s, g) <= LaterTriesIn(w, s.futs[f := SecondTry(None)], g);
  }

  lemma KindsOnly(w: Waiters.Waiting, u: Waiters.Waiting, futs: map<nat, Pc>, f: nat)
    requires f in futs && Waiters.Waits(u, f)
    requires forall h :: h in futs && h != f ==> Waiters.KindOf(u, h) == Waiters.KindOf(w, h)
    ensures GrantsIn(u, futs[f := SecondTry(None)]) == GrantsIn(w, futs) - {f}
  {
  }

  lemma OthersShift(s: State, w: Waiters.Waiting, f: nat, id: nat, g: nat)
    requires Inv(s) && Enabled(s, Register(f, id)) && g != f && w == Waiters.Register(s.waiting, f, id)
    ensures forall h :: h in s.futs && h != f ==> Waiters.KindOf(w, h) == Waiters.KindOf(s.waiting, h)
    ensures forall h :: h in s.futs && h != f ==> (Behind(s.waiting, g, h) ==> Behind(w, g, h))
  {
    forall h | h in s.futs && h != f
      ensures Waiters.KindOf(w, h) == Waiters.KindOf(s.waiting, h)
      ensures Behind(s.waiting, g, h) ==> Behind(w, g, h)
    {
      RegisterOthers(s.waiting, f, id, g, h);
    }
  }

  /** Leaving the queue keeps the order of the others, and nobody's grant but the leaver's. */
  lemma LeaveShifts(s: State, f: nat, g: nat)
    requires Inv(s) && f in s.futs && f != g && Waiters.TokenOf(s.waiting, g).Some?
    ensures var w := Waiters.Leave(s.waiting, f);
            && (forall h :: h != f ==> Waiters.KindOf(w, h) == Waiters.KindOf(s.waiting, h))
            && (forall h :: h != f && Behind(s.waiting, g, h) ==> Behind(w, g, h))
  {
    var w := Waiters.Leave(s.waiting, f);
    forall h | h != f && Waiters.TokenOf(s.waiting, h).Some? && Waiters.TokenOf(s.waiting, f).Some?
      ensures Waiters.KindOf(w, h) == Waiters.KindOf(s.waiting, h)
      ensures Behind(s.waiting, g, h) ==> Behind(w, g, h)
    {
      OwnSlot(s.waiting, f, h);
      OwnSlot(s.waiting, f, g);
      if Behind(s.waiting, g, h) {
        BeforeWithout(s.waiting.queue.fifo, s.waiting.regs[f].value, s.waiting.regs[g].value, s.waiting.regs[h].value);
      }
    }
  }

  lemma LeaverIsOut(s: State, f: nat, g: nat)
    requires Inv(s) && f in s.futs && f != g && Waiters.TokenOf(s.waiting, g).Some? && !s.futs[f].SecondTry?
    ensures var w, futs := Waiters.Leave(s.waiting, f), s.futs - {f};
            GrantsIn(w, futs) == Grants(s) - {f} && LaterTries(s, g) <= LaterTriesIn(w, futs, g)
  {
    LeaveShifts(s, f, g);
  }

  lemma LeaveStepCovers(s: State, l: Label)
    requires Inv(s) && Covered(s) && Enabled(s, l) && (l.Remove? || l.Drop?)
    ensures Covered(Do(s, l))
  {
    var t := Do(s, l);
    Waiters.LeaveKeeps(s.waiting, l.f);
    assert s.futs[l.f] == if l.Remove? then Leaving else Idle;
    forall g | Settled(t, g) ensures CoveredFor(t, g) {
      assert Settled(s, g) && g != l.f && CoveredFor(s, g);
      LeaverIsOut(s, l.f, g);
      DropElement(Grants(s), l.f);
      Subset(LaterTries(s, g), LaterTries(t, g));
    }
  }

  /** Who holds the head of the queue. */
  lemma HeadOwner(s: State) returns (h: nat)
    requires Inv(s) && s.waiting.queue.fifo != []
    ensures h in s.futs && Waiters.TokenOf(s.waiting, h) == Some(s.waiting.queue.fifo[0])
    ensures HeadIsLeaving(s) <==> s.futs[h] == Leaving
    ensures Waiters.KindOf(s.waiting, h) == Some(Queued)
  {
    var head := s.waiting.queue.fifo[0];
    assert head in s.waiting.queue.fifo;
    h :| Waiters.Owns(s.waiting.regs, h, head);
    KindsAndPlaces(s.waiting, h);
    if HeadIsLeaving(s) {
      var k :| k in s.futs && s.futs[k] == Leaving && Waiters.TokenOf(s.waiting, k) == Some(head);
      if k != h { OwnSlot(s.waiting, k, h); }
    }
  }

  /** What granting the head does to the cover of anyone else: nothing, unless the head is leaving. */
  lemma WakeShifts(s: State, h: nat, g: nat)
    requires Inv(s) && Enabled(s, WakeOne) && s.waiting.queue.fifo != [] && h in s.futs && g != h
    requires Waiters.TokenOf(s.waiting, h) == Some(s.waiting.queue.fifo[0]) && Waiters.TokenOf(s.waiting, g).Some?
    requires Waiters.KindOf(s.waiting, h) == Some(Queued)
    ensures var t := Do(s, WakeOne);
            && Waiters.KindOf(t.waiting, g) == Waiters.KindOf(s.waiting, g)
            && LaterTries(t, g) == LaterTries(s, g)
            && Grants(t) == Grants(s) + (if s.futs[h] == Leaving then {} else {h}) && h !in Grants(s)
  {
    var t := Do(s, WakeOne);
    OwnSlot(s.waiting, h, g);
    var a := s.waiting.regs[g].value;
    forall f | f in s.futs
      ensures Behind(t.waiting, g, f) <==> Behind(s.waiting, g, f)
      ensures f != h ==> Waiters.KindOf(t.waiting, f) == Waiters.KindOf(s.waiting, f)
    {
      if Waiters.TokenOf(s.waiting, f).Some? {
        BeforeTail(s.waiting.queue.fifo, a, s.waiting.regs[f].value);
        if f != h { OwnSlot(s.waiting, h, f); }
      }
    }
  }

  /** For anyone but the head: still settled or not as before, and one cover less if the head is leaving. */
  lemma WakeKeepsOthers(s: State, h: nat, g: nat)
    requires Inv(s) && Enabled(s, WakeOne) && s.waiting.queue.fifo != [] && h in s.futs && g != h
    requires Waiters.TokenOf(s.waiting, h) == Some(s.waiting.queue.fifo[0])
    requires Waiters.KindOf(s.waiting, h) == Some(Queued)
    ensures var t := Do(s, WakeOne);
            && (Settled(t, g) <==> Settled(s, g))
            && (Settled(s, g) ==> Cover(t, g) == Cover(s, g) - if s.futs[h] == Leaving then 1 else 0)
  {
    if Waiters.TokenOf(s.waiting, g).Some? {
      WakeShifts(s, h, g);
      AddElement(Grants(s), h);
    }
  }

  lemma HeadIsNoLongerSettled(s: State, h: nat)
    requires Inv(s) && Enabled(s, WakeOne) && s.waiting.queue.fifo != []
    requires Waiters.TokenOf(s.waiting, h) == Some(s.waiting.queue.fifo[0])
    ensures !Settled(Do(s, WakeOne), h)
  {
  }

  /** A grant keeps every free permit answered for exactly unless it is misdirected. */
  lemma WakeCoversUnlessMisdirected(s: State)
    requires Inv(s) && Covered(s) && Enabled(s, WakeOne)
    ensures Covered(Do(s, WakeOne)) <==> !Misdirects(s)
  {
    var t := Do(s, WakeOne);
    if s.waiting.queue.fifo == [] {
      forall g ensures !Settled(s, g) { KindsAndPlaces(s.waiting, g); }
      assert t.waiting == s.waiting && t.futs == s.futs;
      forall g ensures !Settled(t, g) {}
    } else {
      var h := HeadOwner(s);
      HeadIsNoLongerSettled(s, h);
      if Misdirects(s) {
        var g :| Settled(s, g) && s.permits == Cover(s, g);
        WakeKeepsOthers(s, h, g);
        assert Settled(t, g) && !CoveredFor(t, g);
      } else {
        forall g | Settled(t, g) ensures CoveredFor(t, g) {
          WakeKeepsOthers(s, h, g);
          assert CoveredFor(s, g);
        }
      }
    }
  }

  /**
   The exact step at which a free permit can be left with nobody to look for it: a `wake_one` that
   grants a future between its taking a permit and its `remove`, which discards the grant, while a
   settled waiter has no grant, try or wake to spare.
   */
  lemma OnlyAMisdirectedGrantUncovers(s: State, l: Label)
    requires Inv(s) && Covered(s) && Enabled(s, l)
    ensures Covered(Do(s, l)) <==> !(l == WakeOne && Misdirects(s))
  {
    match l
    case WakeOne => WakeCoversUnlessMisdirected(s);
    case Load(f) => ObservationCovers(s, f);
    case Exchange(f) =>
      if s.permits > 0 && s.permits == s.futs[f].seen.value { TakingCovers(s, f); } else { ObservationCovers(s, f); }
    case Register(f, id) => RegisterCovers(s, f, id);
    case Remove(_) => LeaveStepCovers(s, l);
    case Drop(_) => LeaveStepCovers(s, l);
    case Create(_) => QuietStepCovers(s, l);
    case StartPoll(_) => QuietStepCovers(s, l);
    case Wake(_) => QuietStepCovers(s, l);
    case _ => AccountStepCovers(s, l);
  }

  // ---------- What runs guarantee ----------

  /** The step to `run[k]` is a misdirected grant. */
  ghost predicate MisdirectedAt(run: seq<State>, k: int) {
    0 < k < |run| && Enabled(run[k - 1], WakeOne) && run[k] == Do(run[k - 1], WakeOne) && Misdirects(run[k - 1])
  }

  lemma StepInRun(run: seq<State>, j: nat) returns (l: Label)
    requires IsRun(Init, Next, run) && 0 < j < |run|
    ensures Enabled(run[j - 1], l) && run[j] == Do(run[j - 1], l)
    ensures MisdirectedAt(run, j) ==> l == WakeOne
  {
    assert StepAt(Next, run, j);
    if MisdirectedAt(run, j) { l := WakeOne; }
    else { l :| Enabled(run[j - 1], l) && run[j] == Do(run[j - 1], l); }
  }

  /**
   No waiter sleeps beside a free permit that nobody will look for, at any point of a run, if and
   only if no grant of the run is misdirected.
   */
  lemma {:induction false} FreePermitsAreSpokenFor(run: seq<State>)
    requires IsRun(Init, Next, run)
    ensures (forall i :: 0 <= i < |run| ==> Covered(run[i])) <==> (forall k :: !MisdirectedAt(run, k))
  {
    if forall i :: 0 <= i < |run| ==> Covered(run[i]) {
      forall k | 0 < k < |run| ensures !MisdirectedAt(run, k) {
        assert Covered(run[k]) && Covered(run[k - 1]);
        InvAt(run, k - 1);
        if MisdirectedAt(run, k) { OnlyAMisdirectedGrantUncovers(run[k - 1], WakeOne); }
      }
    } else if forall k :: !MisdirectedAt(run, k) {
      forall i | 0 <= i < |run| ensures Covered(run[i]) { CoveredAt(run, i); }
    }
  }

  lemma {:induction false} CoveredAt(run: seq<State>, i: nat)
    requires IsRun(Init, Next, run) && i < |run| && forall k :: !MisdirectedAt(run, k)
    ensures Covered(run[i])
  {
    if i > 0 {
      CoveredAt(run, i - 1);
      InvAt(run, i - 1);
      var l := StepInRun(run, i);
      assert !MisdirectedAt(run, i);
      OnlyAMisdirectedGrantUncovers(run[i - 1], l);
    }
  }

  /** In particular, no grant that lands on a future holding its permit means nothing is lost. */
  lemma NoGrantToALeaverIsEnough(run: seq<State>, i: nat)
    requires IsRun(Init, Next, run) && i < |run|
    requires forall k :: 0 < k < |run| && Enabled(run[k - 1], WakeOne) && run[k] == Do(run[k - 1], WakeOne)
               ==> !HeadIsLeaving(run[k - 1])
    ensures Covered(run[i])
  {
    forall k ensures !MisdirectedAt(run, k) {}
    CoveredAt(run, i);
  }

  /** With every wake, check, grant and try over, a covered state has no sleeper beside a free permit. */
  lemma QuietMeansNoneFree(s: State, g: nat)
    requires Covered(s) && Settled(s, g) && s.owed == 0 && s.checking == 0
    requires forall f :: f in s.futs ==> !s.futs[f].SecondTry? && Waiters.KindOf(s.waiting, f) != Some(One)
    ensures s.permits == 0
  {
    assert Grants(s) == {} && LaterTries(s, g) == {};
    assert CoveredFor(s, g);
  }

  // ---------- A run that loses a wake ----------

  function Waits(fifo: seq<nat>, live: map<nat, Registration>, regs: map<nat, Option<nat>>, wakes: multiset<WakerId>,
                 polling: set<nat>): Waiters.Waiting {
    Waiters.Waiting(QueueView(fifo, live), regs, wakes, {}, polling)
  }

  lemma Reached(from: State, s: State, l: Label)
    requires Reaches(Next, from, s) && Enabled(s, l)
    ensures Reaches(Next, from, Do(s, l))
  {
    assert Next(s, Do(s, l));
    ReachesNext(Next, from, s, Do(s, l));
  }

  const TWO_PERMITS := State(2, 0, 0, 2, 0, 0, Waiters.NOBODY, map[])

  /** Both permits are out, and two futures have tried once and found none. */
  const BOTH_TRIED := State(0, 2, 0, 2, 0, 0, Waits([], map[], map[0 := None, 1 := None], multiset{}, {0, 1}),
                            map[0 := MustRegister, 1 := MustRegister])

  /** A permit came back before they registered, which its wake could not see. */
  const BOTH_REGISTERED := State(1, 1, 0, 2, 0, 0,
                                 Waits([0, 1],
                                       map[0 := Registration(Queued, Some(0)), 1 := Registration(Queued, Some(1))],
                                       map[0 := Some(0), 1 := Some(1)], multiset{}, {}),
                                 map[0 := SecondTry(None), 1 := SecondTry(None)])

  /** The first took it, and the second found none and sleeps. */
  const ONE_LEAVES := BOTH_REGISTERED.(permits := 0, held := 2, futs := map[0 := Leaving, 1 := Idle])

  /** The other permit came back, its wake granted the first, and the first left with the grant. */
  const ONE_SLEEPS := State(1, 1, 0, 2, 0, 0,
                            Waits([1], map[1 := Registration(Queued, Some(1))], map[1 := Some(1)], multiset{0}, {}),
                            map[1 := Idle])

  /** A newcomer that found nothing on its first try. */
  function Newcomer(s: State, f: nat): State {
    s.(waiting := s.waiting.(regs := s.waiting.regs[f := None], polling := s.waiting.polling + {f}),
       futs := s.futs[f := MustRegister])
  }

  lemma NewcomerTries(s: State, f: nat)
    requires f !in s.futs && f !in s.waiting.regs && f !in s.waiting.scheduled && s.permits == 0
    ensures Reaches(Next, s, Newcomer(s, f))
  {
    ReachesSelf(Next, s);
    Reached(s, s, Create(f));
    var s1 := s.(waiting := Waiters.Create(s.waiting, f), futs := s.futs[f := Idle]);
    Reached(s, s1, StartPoll(f));
    var s2 := s.(waiting := Waiters.StartPoll(s1.waiting, f), futs := s.futs[f := FirstTry(None)]);
    assert s1.futs[f := FirstTry(None)] == s2.futs;
    Reached(s, s2, Load(f));
    assert s2.futs[f := MustRegister] == s.futs[f := MustRegister];
    assert s.waiting.scheduled + {f} - {f} == s.waiting.scheduled;
  }

  lemma BothTry()
    ensures Reaches(Next, TWO_PERMITS, BOTH_TRIED)
  {
    ReachesSelf(Next, TWO_PERMITS);
    Reached(TWO_PERMITS, TWO_PERMITS, TryAcquire);
    var s1 := TWO_PERMITS.(permits := 1, held := 1);
    Reached(TWO_PERMITS, s1, TryAcquire);
    var s2 := TWO_PERMITS.(permits := 0, held := 2);
    NewcomerTries(s2, 0);
    var s3 := s2.(waiting := Waits([], map[], map[0 := None], multiset{}, {0}), futs := map[0 := MustRegister]);
    assert Newcomer(s2, 0) == s3;
    NewcomerTries(s3, 1);
    assert Newcomer(s3, 1) == BOTH_TRIED;
    ReachesThrough(Next, TWO_PERMITS, s2, s3);
    ReachesThrough(Next, TWO_PERMITS, s3, BOTH_TRIED);
  }

  const ONE_REGISTERED := State(1, 1, 0, 2, 0, 0,
                                Waits([0], map[0 := Registration(Queued, Some(0))],
                                      map[0 := Some(0), 1 := None], multiset{}, {1}),
                                map[0 := SecondTry(None), 1 := MustRegister])

  lemma FirstRegisters()
    ensures Waiters.Register(BOTH_TRIED.waiting, 0, 0) == ONE_REGISTERED.waiting
  {
    var u, w := Waiters.Register(BOTH_TRIED.waiting, 0, 0), ONE_REGISTERED.waiting;
    assert u.queue.fifo == w.queue.fifo;
    assert u.queue.live == w.queue.live;
    assert u.regs == w.regs;
    assert u.polling == w.polling;
  }

  lemma SecondRegisters()
    ensures Waiters.Register(ONE_REGISTERED.waiting, 1, 1) == BOTH_REGISTERED.waiting
  {
    var u, w := Waiters.Register(ONE_REGISTERED.waiting, 1, 1), BOTH_REGISTERED.waiting;
    assert u.queue.fifo == w.queue.fifo;
    assert u.queue.live == w.queue.live;
    assert u.regs == w.regs;
    assert u.polling == w.polling;
  }

  lemma BothRegister()
    ensures Reaches(Next, BOTH_TRIED, BOTH_REGISTERED)
  {
    var s2 := BOTH_TRIED.(permits := 1, held := 1);
    PermitComesBack(BOTH_TRIED);
    FirstRegisters();
    assert s2.futs[0 := SecondTry(None)] == ONE_REGISTERED.futs;
    Reached(BOTH_TRIED, s2, Register(0, 0));
    SecondRegisters();
    assert ONE_REGISTERED.futs[1 := SecondTry(None)] == BOTH_REGISTERED.futs;
    Reached(BOTH_TRIED, ONE_REGISTERED, Register(1, 1));
  }

  /** A release whose wake finds nobody in the queue. */
  lemma PermitComesBack(s: State)
    requires s.held > 0 && s.waiting.queue.fifo == []
    ensures Reaches(Next, s, s.(permits := s.permits + 1, held := s.held - 1))
  {
    ReachesSelf(Next, s);
    Reached(s, s, Release);
    Reached(s, Do(s, Release), WakeOne);
    assert Do(Do(s, Release), WakeOne) == s.(permits := s.permits + 1, held := s.held - 1);
  }

  lemma OneTakes()
    ensures Reaches(Next, BOTH_REGISTERED, ONE_LEAVES)
  {
    ReachesSelf(Next, BOTH_REGISTERED);
    Reached(BOTH_REGISTERED, BOTH_REGISTERED, Load(0));
    var s1 := Do(BOTH_REGISTERED, Load(0));
    Reached(BOTH_REGISTERED, s1, Exchange(0));
    var s2 := Do(s1, Exchange(0));
    Reached(BOTH_REGISTERED, s2, Load(1));
    assert Do(s2, Load(1)) == ONE_LEAVES;
  }

  /** The queue once the leaver, still at its head, has been granted. */
  const LEAVER_GRANTED := Waits([1], map[0 := Registration(One, None), 1 := Registration(Queued, Some(1))],
                                map[0 := Some(0), 1 := Some(1)], multiset{0}, {})

  lemma LeaverIsGranted()
    ensures Waiters.WakeOne(ONE_LEAVES.waiting) == LEAVER_GRANTED
  {
    var queue := ONE_LEAVES.waiting.queue;
    assert queue.fifo == [0, 1] && queue.fifo[1..] == [1];
    assert queue.live[0 := Registration(One, None)] == LEAVER_GRANTED.queue.live;
    assert HeadWaker(queue) == [0];
  }

  lemma LeaverIsGone()
    ensures Waiters.Leave(LEAVER_GRANTED, 0) == ONE_SLEEPS.waiting
  {
    var w := LEAVER_GRANTED;
    assert Without(w.queue.fifo, 0) == [1] by { assert [1][1..] == []; }
    assert w.queue.live - {0} == ONE_SLEEPS.waiting.queue.live;
    assert w.regs - {0} == ONE_SLEEPS.waiting.regs;
  }

  lemma OneLeaves()
    ensures Reaches(Next, ONE_LEAVES, ONE_SLEEPS)
  {
    ReachesSelf(Next, ONE_LEAVES);
    Reached(ONE_LEAVES, ONE_LEAVES, Release);
    var s1 := Do(ONE_LEAVES, Release);
    Reached(ONE_LEAVES, s1, WakeOne);
    LeaverIsGranted();
    var s2 := ONE_LEAVES.(permits := 1, held := 1, waiting := LEAVER_GRANTED);
    assert Do(s1, WakeOne) == s2;
    Reached(ONE_LEAVES, s2, Remove(0));
    LeaverIsGone();
    assert s2.futs - {0} == ONE_SLEEPS.futs;
  }

  /**
   A run after which a permit is free, one future sleeps in the queue with no wake on its way, and
   nothing is under way that would look for the permit.
   */
  lemma GrantMayBeLost()
    ensures Init(TWO_PERMITS) && Reaches(Next, TWO_PERMITS, ONE_SLEEPS)
    ensures Settled(ONE_SLEEPS, 1) && !Covered(ONE_SLEEPS)
    ensures ONE_SLEEPS.permits == 1 && ONE_SLEEPS.owed == ONE_SLEEPS.checking == 0 && ONE_SLEEPS.futs == map[1 := Idle]
    ensures 1 !in ONE_SLEEPS.waiting.wakes && 1 !in ONE_SLEEPS.waiting.scheduled
  {
    BothTry();
    BothRegister();
    OneTakes();
    OneLeaves();
    ReachesThrough(Next, TWO_PERMITS, BOTH_TRIED, BOTH_REGISTERED);
    ReachesThrough(Next, TWO_PERMITS, BOTH_REGISTERED, ONE_LEAVES);
    ReachesThrough(Next, TWO_PERMITS, ONE_LEAVES, ONE_SLEEPS);
    assert Grants(ONE_SLEEPS) == {} && LaterTries(ONE_SLEEPS, 1) == {};
    assert Settled(ONE_SLEEPS, 1) && !CoveredFor(ONE_SLEEPS, 1);
  }

  // ---------- Whole calls ----------

  /** The protocol of module `Semaphores`, in which each poll and each drop is one step. */
  function Coarse(s: State): Semaphores.State {
    Semaphores.State(s.permits, s.held, s.forgotten, s.created, s.owed, s.waiting)
  }

  /** Run back to back, the steps of one poll are that protocol's poll, and the object's. */
  lemma PollIsItsSteps(s: State, f: nat, id: nat)
    requires Inv(s) && Enabled(s, StartPoll(f)) && id !in s.waiting.queue.live
    ensures var t1 := Do(Do(s, StartPoll(f)), Load(f));
            var t := if s.permits > 0 then Do(Do(t1, Exchange(f)), Remove(f)) else Do(Do(t1, Register(f, id)), Load(f));
            && Coarse(t) == Semaphores.DoPoll(Coarse(s), f, id)
            && t.futs == if s.permits > 0 then s.futs - {f} else s.futs
  {
  }

  /** And those of one drop are its drop. */
  lemma DropIsItsSteps(s: State, f: nat)
    requires Inv(s) && Enabled(s, Drop(f))
    ensures var t1 := Do(s, Drop(f));
            var t2 := if t1.checking > s.checking then Do(t1, CheckPermits) else t1;
            var t := if t2.owed > s.owed then Do(t2, WakeOne) else t2;
            Coarse(t) == Semaphores.DoDrop(Coarse(s), f)
  {
  }

  /**
   The rounds of one try after its load: other threads make the count `found[0]`, then the exchange
   fails or is retried.
   */
  ghost function Rounds(s: State, f: nat, found: seq<nat>): State
    decreases |found|
  {
    if !(Enabled(s, Exchange(f))) then s
    else if found == [] then Do(s, Exchange(f))
    else
      var u := s.(permits := found[0]);
      Rounds(if Some(found[0]) == s.futs[f].seen then u else Do(u, Exchange(f)), f, found[1..])
  }

  /** What `Semaphore.TryAcquire` promises, of a try that has seen `seen`: it succeeds unless it has seen zero. */
  ghost predicate Ends(t: State, f: nat, seen: seq<nat>)
    requires seen != []
  {
    && f in t.futs
    && (t.futs[f] == Leaving <==> 0 !in seen)
    && t.permits == if 0 in seen then 0 else seen[|seen| - 1] - 1
  }

  lemma {:induction false} RoundsEnd(s: State, f: nat, found: seq<nat>)
    requires Enabled(s, Exchange(f)) && s.futs[f].seen == Some(s.permits) && s.permits > 0
    ensures Ends(Rounds(s, f, found), f, [s.permits] + found)
    decreases |found|
  {
    if found != [] {
      var u := s.(permits := found[0]);
      var next := if found[0] == s.permits then u else Do(u, Exchange(f));
      assert Rounds(s, f, found) == Rounds(next, f, found[1..]);
      assert found == [found[0]] + found[1..];
      if found[0] > 0 {
        RoundsEnd(next, f, found[1..]);
      }
    }
  }

  /** The loads and exchanges of one try, under whatever its failing exchanges find, are `Semaphore.TryAcquire`. */
  lemma TryIsItsSteps(s: State, f: nat, found: seq<nat>)
    requires Enabled(s, Load(f))
    ensures Ends(Rounds(Do(s, Load(f)), f, found), f, [s.permits] + found)
  {
    if s.permits > 0 { RoundsEnd(Do(s, Load(f)), f, found); }
  }
}
