/**
 CPU credits (src/credits.rs): a signed balance with a cap and saturating debt, an in-flight
 counter, reservations that settle exactly once, and `wait_for` over the `Notify` protocol.
 Every compare-exchange and every lock section is one step.
 */
module Credits {
  import opened Common
  import opened Behaviours
  import opened WaitQueues
  import N = Notifies

  const I64_MAX: int := 0x7FFF_FFFF_FFFF_FFFF
  const I64_MIN: int := -0x8000_0000_0000_0000

  function Clamp(x: int): int {
    if x > I64_MAX then I64_MAX else if x < I64_MIN then I64_MIN else x
  }

  /** `CreditAccount::adjust`: saturating addition, then the cap. */
  function Adjusted(balance: int, credits: int, capacity: int): int {
    Min(Clamp(balance + credits), capacity)
  }

  /**
   A reservation's life. `Admitted` has raised the in-flight count only; `RollingBack` failed on
   the balance; `Reserved` is live, `started` once its turn runs; `Refunded` has reconciled the
   balance and still counts as in flight.
   */
  datatype Job = Admitted(reserved: int) | RollingBack | Reserved(reserved: int, started: Option<nat>) | Refunded

  /** A `wait_for` and where it stands; `onBalance` is which of its two conditions it saw fail. */
  datatype Pc = Start | Enabling | BalanceOk | Awaiting(onBalance: bool) | Returning

  datatype Claim = Claim(credits: int, pc: Pc)

  /**
   `broadcasts` counts changes whose `notify_waiters` has not run. The last four are bookkeeping:
   CPU charged, credits replenished, credits lost to the cap, and debt forgiven by saturation.
   */
  datatype State = State(capacity: int, parallelism: nat, balance: int, inFlight: nat, jobs: map<nat, Job>,
                         waiters: map<nat, Claim>, broadcasts: nat, notify: N.State,
                         charged: int, refilled: int, clipped: int, forgiven: int)

  datatype Label =
    | Admit(j: nat, credits: nat)
    | Take(j: nat)
    | RollBack(j: nat)
    | Enter(j: nat, now: nat)
    | Refund(j: nat, now: nat)
    | Retire(j: nat)
    | Replenish(credits: nat)
    | Broadcast
    | WaitFor(t: nat, credits: nat)
    | CreateNotified(t: nat)
    | Step(t: nat, inner: N.Label)
    | CheckBalance(t: nat)
    | CheckInFlight(t: nat)
    | Again(t: nat)
    | Leave(t: nat)
    | Wake(w: WakerId)

  ghost predicate Enabled(s: State, l: Label) {
    match l
    case Admit(j, credits) => j !in s.jobs && 0 < credits <= I64_MAX && s.inFlight < s.parallelism
    case Take(j) => j in s.jobs && s.jobs[j].Admitted?
    case RollBack(j) => j in s.jobs && s.jobs[j].RollingBack?
    case Enter(j, _) => j in s.jobs && s.jobs[j].Reserved? && s.jobs[j].started.None?
    case Refund(j, _) => j in s.jobs && s.jobs[j].Reserved?
    case Retire(j) => j in s.jobs && s.jobs[j].Refunded?
    case Replenish(_) => true
    case Broadcast => s.broadcasts > 0
    case WaitFor(t, credits) => t !in s.waiters && t !in s.notify.tasks && 0 < credits <= s.capacity
    case CreateNotified(t) => t in s.waiters && s.waiters[t].pc == Start && t !in s.notify.tasks
    case Step(t, inner) =>
      && t in s.waiters && t in s.notify.tasks && N.Enabled(s.notify, inner)
      && (if s.waiters[t].pc == Enabling then
            N.CallStep(t, inner, false) && (inner.Begin? ==> s.notify.tasks[t].pc == N.Fresh)
          else s.waiters[t].pc.Awaiting? && N.CallStep(t, inner, true))
    case CheckBalance(t) =>
      t in s.waiters && s.waiters[t].pc == Enabling && t in s.notify.tasks && s.notify.tasks[t].pc == N.Idle
    case CheckInFlight(t) => t in s.waiters && s.waiters[t].pc == BalanceOk
    case Again(t) => t in s.waiters && s.waiters[t].pc.Awaiting? && N.Enabled(s.notify, N.Drop(t))
        && s.notify.tasks[t].fut.done
    case Leave(t) =>
      t in s.waiters && (s.waiters[t].pc == Returning || s.waiters[t].pc.Awaiting?) && N.Enabled(s.notify, N.Drop(t))
    case Wake(w) => N.Enabled(s.notify, N.Wake(w))
  }

  /** The balance half of `reserve`: all of the request, or none of it. */
  function DoTake(s: State, j: nat): State
    requires j in s.jobs && s.jobs[j].Admitted?
  {
    var reserved := s.jobs[j].reserved;
    if s.balance >= reserved then
      s.(balance := s.balance - reserved, jobs := s.jobs[j := Reserved(reserved, None)])
    else
      s.(jobs := s.jobs[j := RollingBack])
  }

  /** What the turn used: nothing if it never ran, else the clock's difference, saturating. */
  function Used(started: Option<nat>, now: nat): int {
    if started.None? || now <= started.value then 0 else Min(now - started.value, I64_MAX)
  }

  /** Adds `credits` under saturation and cap, and books what those two swallowed. */
  function Adjust(s: State, credits: int): State {
    var sum := Clamp(s.balance + credits);
    s.(balance := Adjusted(s.balance, credits, s.capacity),
       forgiven := s.forgiven + (if sum > s.balance + credits then sum - (s.balance + credits) else 0),
       clipped := s.clipped + (if s.balance + credits > s.capacity then s.balance + credits - s.capacity else 0))
  }

  function DoRefund(s: State, j: nat, now: nat): State
    requires j in s.jobs && s.jobs[j].Reserved?
  {
    var actual := Used(s.jobs[j].started, now);
    Adjust(s, Clamp(s.jobs[j].reserved - actual)).(jobs := s.jobs[j := Refunded], charged := s.charged + actual)
  }

  /** The count goes down and a broadcast is owed. */
  function DoRetire(s: State, j: nat): State {
    s.(inFlight := if s.inFlight > 0 then s.inFlight - 1 else 0, jobs := s.jobs - {j}, broadcasts := s.broadcasts + 1)
  }

  function DoReplenish(s: State, credits: nat): State {
    Adjust(s, Min(credits, I64_MAX)).(refilled := s.refilled + Min(credits, I64_MAX), broadcasts := s.broadcasts + 1)
  }

  function At(s: State, t: nat, pc: Pc): State
    requires t in s.waiters
  {
    s.(waiters := s.waiters[t := s.waiters[t].(pc := pc)])
  }

  function Do(s: State, l: Label): State
    requires Enabled(s, l)
  {
    match l
    case Admit(j, credits) => s.(inFlight := s.inFlight + 1, jobs := s.jobs[j := Admitted(credits)])
    case Take(j) => DoTake(s, j)
    case RollBack(j) => DoRetire(s, j)
    case Enter(j, now) => s.(jobs := s.jobs[j := s.jobs[j].(started := Some(now))])
    case Refund(j, now) => DoRefund(s, j, now)
    case Retire(j) => DoRetire(s, j)
    case Replenish(credits) => DoReplenish(s, credits)
    case Broadcast => s.(broadcasts := s.broadcasts - 1, notify := N.Do(s.notify, N.NotifyWaiters))
    case WaitFor(t, credits) => s.(waiters := s.waiters[t := Claim(credits, Start)])
    case CreateNotified(t) => At(s, t, Enabling).(notify := N.Do(s.notify, N.Create(t)))
    case Step(_, inner) => s.(notify := N.Do(s.notify, inner))
    case CheckBalance(t) => At(s, t, if s.balance >= s.waiters[t].credits then BalanceOk else Awaiting(true))
    case CheckInFlight(t) => At(s, t, if s.inFlight < s.parallelism then Returning else Awaiting(false))
    case Again(t) => At(s, t, Start).(notify := N.Do(s.notify, N.Drop(t)))
    case Leave(t) => s.(waiters := s.waiters - {t}, notify := N.Do(s.notify, N.Drop(t)))
    case Wake(w) => s.(notify := N.Do(s.notify, N.Wake(w)))
  }

  ghost predicate Init(s: State) {
    && N.Init(s.notify) && 0 < s.capacity <= I64_MAX && s.parallelism > 0
    && s == State(s.capacity, s.parallelism, s.capacity, 0, map[], map[], 0, s.notify, 0, 0, 0, 0)
  }

  ghost predicate Next(s: State, t: State) {
    exists l :: Enabled(s, l) && t == Do(s, l)
  }

  // ---------- Money ----------

  function Held(job: Job): int {
    if job.Reserved? then job.reserved else 0
  }

  /** Everything live reservations hold. */
  ghost function Outstanding(jobs: map<nat, Job>): int
    decreases |jobs|
  {
    if jobs == map[] then 0
    else
      var j :| j in jobs;
      Held(jobs[j]) + Outstanding(jobs - {j})
  }

  lemma {:induction false} OutstandingSplit(jobs: map<nat, Job>, j: nat)
    requires j in jobs
    ensures Outstanding(jobs) == Held(jobs[j]) + Outstanding(jobs - {j})
    decreases |jobs|
  {
    var k :| k in jobs && Outstanding(jobs) == Held(jobs[k]) + Outstanding(jobs - {k});
    if k != j {
      OutstandingSplit(jobs - {k}, j);
      OutstandingSplit(jobs - {j}, k);
      assert jobs - {k} - {j} == jobs - {j} - {k};
    }
  }

  lemma OutstandingAfterSet(jobs: map<nat, Job>, j: nat, job: Job)
    ensures Outstanding(jobs[j := job]) == Outstanding(jobs - {j}) + Held(job)
    ensures j !in jobs ==> jobs - {j} == jobs
    ensures j in jobs ==> Outstanding(jobs) == Held(jobs[j]) + Outstanding(jobs - {j})
  {
    OutstandingSplit(jobs[j := job], j);
    assert jobs[j := job] - {j} == jobs - {j};
    if j in jobs { OutstandingSplit(jobs, j); } else { assert jobs - {j} == jobs; }
  }

  ghost predicate MoneyOk(s: State) {
    && 0 < s.capacity <= I64_MAX
    && I64_MIN <= s.balance <= s.capacity
    && (forall j :: j in s.jobs && (s.jobs[j].Reserved? || s.jobs[j].Admitted?) ==> 0 < s.jobs[j].reserved <= I64_MAX)
    && s.balance + Outstanding(s.jobs) + s.charged == s.capacity + s.refilled - s.clipped + s.forgiven
    && 0 <= s.clipped && 0 <= s.forgiven && 0 <= s.charged && 0 <= s.refilled && 0 <= Outstanding(s.jobs)
    && (s.refilled == 0 && s.forgiven == 0 ==> s.clipped == 0)
  }

  /** The in-flight counter is the number of reservations that exist, in whatever phase. */
  ghost predicate FlightOk(s: State) {
    s.inFlight == |s.jobs| && s.inFlight <= s.parallelism
  }

  lemma {:induction false} OutstandingNonNegative(jobs: map<nat, Job>)
    requires forall j :: j in jobs && jobs[j].Reserved? ==> jobs[j].reserved > 0
    ensures Outstanding(jobs) >= 0
    decreases |jobs|
  {
    if jobs != map[] {
      var j :| j in jobs;
      OutstandingSplit(jobs, j);
      OutstandingNonNegative(jobs - {j});
    }
  }

  lemma SetJobCount(jobs: map<nat, Job>, j: nat, job: Job)
    ensures |jobs[j := job]| == |jobs| + (if j in jobs then 0 else 1)
    ensures |jobs - {j}| == |jobs| - (if j in jobs then 1 else 0)
  {
    assert jobs[j := job].Keys == jobs.Keys + {j};
    assert (jobs - {j}).Keys == jobs.Keys - {j};
    AddElement(jobs.Keys, j);
    DropElement(jobs.Keys, j);
  }

  /** Rewriting one job moves as much out of the balance as into the reservation. */
  lemma JobSetKeeps(s: State, t: State, j: nat, job: Job)
    requires MoneyOk(s) && t == s.(jobs := s.jobs[j := job], balance := t.balance, inFlight := t.inFlight)
    requires (job.Reserved? || job.Admitted?) ==> 0 < job.reserved <= I64_MAX
    requires t.balance + Held(job) == s.balance + (if j in s.jobs then Held(s.jobs[j]) else 0)
    requires I64_MIN <= t.balance <= s.balance
    ensures MoneyOk(t)
  {
    OutstandingAfterSet(s.jobs, j, job);
    OutstandingNonNegative(t.jobs);
  }

  lemma AdmitKeeps(s: State, j: nat, credits: nat)
    requires MoneyOk(s) && FlightOk(s) && Enabled(s, Admit(j, credits))
    ensures MoneyOk(Do(s, Admit(j, credits))) && FlightOk(Do(s, Admit(j, credits)))
  {
    SetJobCount(s.jobs, j, Admitted(credits));
    JobSetKeeps(s, Do(s, Admit(j, credits)), j, Admitted(credits));
  }

  lemma TakeKeeps(s: State, j: nat)
    requires MoneyOk(s) && FlightOk(s) && Enabled(s, Take(j))
    ensures MoneyOk(DoTake(s, j)) && FlightOk(DoTake(s, j))
  {
    var t := DoTake(s, j);
    SetJobCount(s.jobs, j, t.jobs[j]);
    JobSetKeeps(s, t, j, t.jobs[j]);
  }

  lemma EnterKeeps(s: State, j: nat, now: nat)
    requires MoneyOk(s) && FlightOk(s) && Enabled(s, Enter(j, now))
    ensures MoneyOk(Do(s, Enter(j, now))) && FlightOk(Do(s, Enter(j, now)))
  {
    var job := s.jobs[j].(started := Some(now));
    SetJobCount(s.jobs, j, job);
    JobSetKeeps(s, s.(jobs := s.jobs[j := job]), j, job);
  }

  lemma EndOfJobKeeps(s: State, l: Label)
    requires MoneyOk(s) && FlightOk(s) && Enabled(s, l)
    requires l.RollBack? || l.Retire?
    ensures MoneyOk(Do(s, l)) && FlightOk(Do(s, l))
  {
    assert Do(s, l).jobs == s.jobs - {l.j};
    OutstandingSplit(s.jobs, l.j);
    SetJobCount(s.jobs, l.j, Refunded);
  }

  lemma RefundKeeps(s: State, j: nat, now: nat)
    requires MoneyOk(s) && FlightOk(s) && Enabled(s, Refund(j, now))
    ensures MoneyOk(DoRefund(s, j, now)) && FlightOk(DoRefund(s, j, now))
  {
    var t := DoRefund(s, j, now);
    OutstandingAfterSet(s.jobs, j, Refunded);
    SetJobCount(s.jobs, j, Refunded);
    OutstandingNonNegative(t.jobs);
    OutstandingNonNegative(s.jobs - {j});
  }

  // ---------- Waiting ----------

  /** Somebody changed the account and its broadcast is still to run. */
  ghost predicate ChangeComing(s: State) {
    s.broadcasts > 0 || exists j :: j in s.jobs && s.jobs[j].Refunded?
  }

  /** The condition a waiter saw fail fails still, or a broadcast is coming. */
  ghost predicate WaiterOk(s: State, t: nat)
    requires t in s.waiters
  {
    var w := s.waiters[t];
    && (w.pc == Start <==> t !in s.notify.tasks)
    && (w.pc != Start && w.pc != Enabling ==> N.Armed(s.notify, t))
    && (w.pc.Awaiting? && N.Waits(s.notify, t) ==>
          ChangeComing(s) || if w.pc.onBalance then s.balance < w.credits else s.inFlight >= s.parallelism)
  }

  ghost predicate Inv(s: State) {
    && MoneyOk(s) && FlightOk(s)
    && N.Inv(s.notify)
    && s.notify.tasks.Keys <= s.waiters.Keys
    && forall t :: t in s.waiters ==> WaiterOk(s, t)
  }

  /** Whatever raises the balance or lowers the count owes a broadcast. */
  lemma ChangesAreAnnounced(s: State, l: Label)
    requires MoneyOk(s) && FlightOk(s) && Enabled(s, l)
    requires l.Admit? || l.Take? || l.RollBack? || l.Enter? || l.Retire? || l.Refund? || l.Replenish?
    ensures var u := Do(s, l);
            (ChangeComing(s) || u.balance > s.balance || u.inFlight < s.inFlight) ==> ChangeComing(u)
  {
    var u := Do(s, l);
    if l.Refund? { assert u.jobs[l.j].Refunded?; }
    if ChangeComing(s) && s.broadcasts == 0 {
      var j :| j in s.jobs && s.jobs[j].Refunded?;
      if !(l.Retire? && l.j == j) && !l.RollBack? && !l.Replenish? {
        assert j in u.jobs && (u.jobs[j].Refunded? || u.broadcasts > 0);
      }
    }
  }

  lemma WaiterUnchanged(s: State, u: State, t: nat)
    requires t in s.waiters && WaiterOk(s, t) && u.waiters == s.waiters && u.notify == s.notify
    requires u.parallelism == s.parallelism
    requires (ChangeComing(s) || u.balance > s.balance || u.inFlight < s.inFlight) ==> ChangeComing(u)
    ensures WaiterOk(u, t)
  {
  }

  lemma AccountStepKeeps(s: State, l: Label)
    requires Inv(s) && Enabled(s, l)
    requires l.Admit? || l.Take? || l.RollBack? || l.Enter? || l.Retire? || l.Refund? || l.Replenish?
    ensures Inv(Do(s, l))
  {
    var u := Do(s, l);
    MoneyKept(s, l);
    ChangesAreAnnounced(s, l);
    AccountOnly(s, l);
    forall t | t in s.waiters ensures WaiterOk(u, t) {
      WaiterUnchanged(s, u, t);
    }
  }

  lemma MoneyKept(s: State, l: Label)
    requires MoneyOk(s) && FlightOk(s) && Enabled(s, l)
    requires l.Admit? || l.Take? || l.RollBack? || l.Enter? || l.Retire? || l.Refund? || l.Replenish?
    ensures MoneyOk(Do(s, l)) && FlightOk(Do(s, l))
  {
    match l
    case Admit(j, credits) => AdmitKeeps(s, j, credits);
    case Take(j) => TakeKeeps(s, j);
    case Enter(j, now) => EnterKeeps(s, j, now);
    case Refund(j, now) => RefundKeeps(s, j, now);
    case RollBack(_) => EndOfJobKeeps(s, l);
    case Retire(_) => EndOfJobKeeps(s, l);
    case _ =>
  }

  lemma AccountOnly(s: State, l: Label)
    requires Enabled(s, l)
    requires l.Admit? || l.Take? || l.RollBack? || l.Enter? || l.Retire? || l.Refund? || l.Replenish?
    ensures Do(s, l).waiters == s.waiters && Do(s, l).notify == s.notify && Do(s, l).parallelism == s.parallelism
  {
  }

  /** A `Notify` step of one waiter, a broadcast or a wake leaves every waiter's promise alone. */
  lemma NotifyStepKeeps(s: State, inner: N.Label, u: State)
    requires Inv(s) && N.Enabled(s.notify, inner) && !inner.Create? && !inner.Drop?
    requires u == s.(notify := N.Do(s.notify, inner), broadcasts := u.broadcasts)
    requires u.broadcasts == s.broadcasts || inner.NotifyWaiters?
    ensures Inv(u)
  {
    N.StepKeeps(s.notify, inner);
    N.TasksStay(s.notify, inner);
    forall t | t in s.waiters ensures WaiterOk(u, t) {
      WaiterKeeps(s, inner, u, t);
    }
  }

  lemma WaiterKeeps(s: State, inner: N.Label, u: State, t: nat)
    requires N.Inv(s.notify) && N.Enabled(s.notify, inner) && !inner.Create? && !inner.Drop?
    requires u == s.(notify := N.Do(s.notify, inner), broadcasts := u.broadcasts)
    requires u.broadcasts == s.broadcasts || inner.NotifyWaiters?
    requires t in s.waiters && WaiterOk(s, t)
    ensures WaiterOk(u, t)
  {
    N.TasksStay(s.notify, inner);
    if N.Armed(s.notify, t) { N.ArmedStopsWaiting(s.notify, inner, t); }
    assert ChangeComing(s) && u.broadcasts == s.broadcasts ==> ChangeComing(u);
  }

  /** One waiter makes or drops its future; the others' promises do not notice. */
  lemma OwnFutureFrame(s: State, inner: N.Label, u: State, t: nat)
    requires N.Inv(s.notify) && N.Enabled(s.notify, inner) && (inner.Create? || inner.Drop?) && t != inner.f
    requires t in s.waiters && WaiterOk(s, t) && t in u.waiters && u.waiters[t] == s.waiters[t]
    requires u == s.(notify := N.Do(s.notify, inner), waiters := u.waiters)
    ensures WaiterOk(u, t)
  {
    if N.Armed(s.notify, t) { N.ArmedStopsWaiting(s.notify, inner, t); }
    assert ChangeComing(s) ==> ChangeComing(u);
  }

  lemma CreateNotifiedKeeps(s: State, t: nat)
    requires Inv(s) && Enabled(s, CreateNotified(t))
    ensures Inv(Do(s, CreateNotified(t)))
  {
    var u := Do(s, CreateNotified(t));
    N.StepKeeps(s.notify, N.Create(t));
    forall w | w in u.waiters ensures WaiterOk(u, w) {
      assert WaiterOk(s, w);
      if w != t { OwnFutureFrame(s, N.Create(t), u, w); }
    }
  }

  /** A waiter that starts over or leaves drops its future. */
  lemma DropStepKeeps(s: State, l: Label)
    requires Inv(s) && Enabled(s, l) && (l.Again? || l.Leave?)
    ensures Inv(Do(s, l))
  {
    var u := Do(s, l);
    N.StepKeeps(s.notify, N.Drop(l.t));
    N.DropLeavesTasks(s.notify, l.t);
    assert u == s.(notify := N.Do(s.notify, N.Drop(l.t)), waiters := u.waiters);
    forall w | w in u.waiters ensures WaiterOk(u, w) {
      if w != l.t { DropFrame(s, l.t, u, w); }
    }
  }

  lemma DropFrame(s: State, t: nat, u: State, w: nat)
    requires N.Inv(s.notify) && N.Enabled(s.notify, N.Drop(t)) && w != t
    requires w in s.waiters && WaiterOk(s, w) && w in u.waiters && u.waiters[w] == s.waiters[w]
    requires u == s.(notify := N.Do(s.notify, N.Drop(t)), waiters := u.waiters)
    ensures WaiterOk(u, w)
  {
    OwnFutureFrame(s, N.Drop(t), u, w);
  }

  lemma CheckStepKeeps(s: State, l: Label)
    requires Inv(s) && Enabled(s, l) && (l.WaitFor? || l.CheckBalance? || l.CheckInFlight?)
    ensures Inv(Do(s, l))
  {
    var u := Do(s, l);
    assert ChangeComing(s) ==> ChangeComing(u);
    if !l.WaitFor? { assert WaiterOk(s, l.t); }
    if l.CheckBalance? { assert N.TaskOk(s.notify.tasks[l.t], s.notify.core.generation); }
    forall t | t in u.waiters ensures WaiterOk(u, t) {
      if t in s.waiters { assert WaiterOk(s, t); }
    }
  }

  lemma StepKeeps(s: State, l: Label)
    requires Inv(s) && Enabled(s, l)
    ensures Inv(Do(s, l))
  {
    match l
    case Broadcast => NotifyStepKeeps(s, N.NotifyWaiters, Do(s, l));
    case Step(_, inner) => NotifyStepKeeps(s, inner, Do(s, l));
    case Wake(w) => NotifyStepKeeps(s, N.Wake(w), Do(s, l));
    case CreateNotified(t) => CreateNotifiedKeeps(s, t);
    case Again(_) => DropStepKeeps(s, l);
    case Leave(_) => DropStepKeeps(s, l);
    case WaitFor(_, _) => CheckStepKeeps(s, l);
    case CheckBalance(_) => CheckStepKeeps(s, l);
    case CheckInFlight(_) => CheckStepKeeps(s, l);
    case _ => AccountStepKeeps(s, l);
  }

  lemma RunsKeepInv(run: seq<State>)
    requires IsRun(Init, Next, run)
    ensures forall i :: 0 <= i < |run| ==> Inv(run[i])
  {
    forall s | Init(s) ensures Inv(s) {
      assert Ones(s.notify.core.queue.live) == {} && N.Reserved(s.notify.tasks) == {};
    }
    forall s, t | Inv(s) && Next(s, t) ensures Inv(t) {
      var l :| Enabled(s, l) && t == Do(s, l);
      StepKeeps(s, l);
    }
    Invariance(Init, Next, Inv, run);
  }

  /**
   The balance never exceeds the capacity and the in-flight count is exactly the reservations that
   exist. Balance, live reservations and charged CPU make up the capacity plus refills, less what
   the cap swallowed, plus debt the signed range could not hold; without a refill or saturation
   nothing is swallowed.
   */
  lemma CreditsConserved(run: seq<State>, i: nat)
    requires IsRun(Init, Next, run) && i < |run|
    ensures var s := run[i];
            && s.balance <= s.capacity && s.inFlight == |s.jobs| <= s.parallelism
            && s.balance + Outstanding(s.jobs) + s.charged == s.capacity + s.refilled - s.clipped + s.forgiven
            && (s.refilled == 0 && s.forgiven == 0 ==> s.balance + Outstanding(s.jobs) + s.charged == s.capacity)
            && s.balance + Outstanding(s.jobs) + s.charged <= s.capacity + s.refilled + s.forgiven
  {
    RunsKeepInv(run);
    assert Inv(run[i]);
  }

  /** Admission never makes the balance negative: debt comes only from overshooting a turn. */
  lemma AdmissionNeverInDebt(s: State, l: Label)
    requires Inv(s) && Enabled(s, l) && Do(s, l).balance < 0 && Do(s, l).balance < s.balance
    ensures l.Refund? && s.jobs[l.j].started.Some? && Used(s.jobs[l.j].started, l.now) > s.jobs[l.j].reserved
  {
  }

  /** A parked `wait_for` whose request could be admitted now has a wake or a broadcast coming. */
  lemma AdmissibleWaitersWake(run: seq<State>, i: nat, t: nat)
    requires IsRun(Init, Next, run) && i < |run| && t in run[i].waiters && run[i].waiters[t].pc.Awaiting?
    requires t in run[i].notify.tasks && run[i].notify.tasks[t].parked
    requires run[i].balance >= run[i].waiters[t].credits && run[i].inFlight < run[i].parallelism
    ensures t in run[i].notify.wakes || ChangeComing(run[i])
  {
    RunsKeepInv(run);
    var s := run[i];
    assert Inv(s) && WaiterOk(s, t) && N.TaskOk(s.notify.tasks[t], s.notify.core.generation);
    assert N.Owns(s.notify.tasks, t, s.notify.tasks[t].fut.registration.value);
  }

  /** `t` waits for `credits` and stands at `pc`. */
  ghost predicate Claims(s: State, t: nat, credits: int, pc: Pc) {
    t in s.waiters && s.waiters[t] == Claim(credits, pc)
  }

  /** The two looks of `wait_for`: neither is passed unless its condition holds at that moment. */
  lemma LooksDecide(s: State, l: Label, t: nat, credits: int)
    requires Enabled(s, l)
    ensures Claims(Do(s, l), t, credits, BalanceOk) ==>
              Claims(s, t, credits, BalanceOk) || (Claims(s, t, credits, Enabling) && s.balance >= credits)
    ensures Claims(Do(s, l), t, credits, Returning) ==>
              Claims(s, t, credits, Returning) || (Claims(s, t, credits, BalanceOk) && s.inFlight < s.parallelism)
  {
  }

  lemma {:induction false} BalanceWasSeen(run: seq<State>, i: nat, t: nat) returns (j: nat)
    requires IsRun(Init, Next, run) && i < |run| && t in run[i].waiters && run[i].waiters[t].pc == BalanceOk
    ensures j < i && run[j].balance >= run[i].waiters[t].credits
  {
    var credits := run[i].waiters[t].credits;
    assert i > 0 && StepAt(Next, run, i);
    var l :| Enabled(run[i - 1], l) && run[i] == Do(run[i - 1], l);
    LooksDecide(run[i - 1], l, t, credits);
    if Claims(run[i - 1], t, credits, BalanceOk) { j := BalanceWasSeen(run, i - 1, t); } else { j := i - 1; }
  }

  /** `wait_for` returns only after it saw a balance that covers the request and then a free place. */
  lemma {:induction false} ReturnsOnlyWhenAdmissible(run: seq<State>, i: nat, t: nat) returns (j: nat, k: nat)
    requires IsRun(Init, Next, run) && i < |run| && t in run[i].waiters && run[i].waiters[t].pc == Returning
    ensures j < k < i && run[j].balance >= run[i].waiters[t].credits && run[k].inFlight < run[k].parallelism
  {
    var credits := run[i].waiters[t].credits;
    assert i > 0 && StepAt(Next, run, i);
    var l :| Enabled(run[i - 1], l) && run[i] == Do(run[i - 1], l);
    LooksDecide(run[i - 1], l, t, credits);
    if Claims(run[i - 1], t, credits, Returning) {
      j, k := ReturnsOnlyWhenAdmissible(run, i - 1, t);
    } else {
      k := i - 1;
      j := BalanceWasSeen(run, k, t);
    }
  }

  // ---------- The objects ----------

  /** What the account object holds of the machine's state. */
  datatype Ledger = Ledger(capacity: int, parallelism: nat, balance: int, inFlight: nat, changed: N.Core)

  function LedgerOf(s: State): Ledger {
    Ledger(s.capacity, s.parallelism, s.balance, s.inFlight, s.notify.core)
  }

  /** A whole `reserve` with nobody in between: admitted, or exactly as it was but for the broadcast of a rollback. */
  function ReserveAlone(l: Ledger, credits: nat): (Ledger, bool) {
    if !(0 < credits <= I64_MAX) || l.inFlight >= l.parallelism then (l, false)
    else if l.balance >= credits then (l.(balance := l.balance - credits, inFlight := l.inFlight + 1), true)
    else (l.(changed := N.BroadcastSection(l.changed)), false)
  }

  function SettleAlone(l: Ledger, reserved: int, started: Option<nat>, now: nat): Ledger
    requires l.inFlight > 0
  {
    l.(balance := Adjusted(l.balance, Clamp(reserved - Used(started, now)), l.capacity),
       inFlight := l.inFlight - 1, changed := N.BroadcastSection(l.changed))
  }

  function ReplenishAlone(l: Ledger, credits: nat): Ledger {
    l.(balance := Adjusted(l.balance, Min(credits, I64_MAX), l.capacity), changed := N.BroadcastSection(l.changed))
  }

  lemma ReplenishIsItsSteps(s: State, credits: nat)
    ensures ReplenishAlone(LedgerOf(s), credits) == LedgerOf(Do(Do(s, Replenish(credits)), Broadcast))
  {
  }

  /** Run back to back, the protocol's steps for one reservation are one whole call. */
  lemma ReserveIsItsSteps(s: State, j: nat, credits: nat)
    requires Enabled(s, Admit(j, credits))
    ensures var taken := Do(Do(s, Admit(j, credits)), Take(j));
            ReserveAlone(LedgerOf(s), credits)
            == if taken.jobs[j].Reserved? then (LedgerOf(taken), true)
                else (LedgerOf(Do(Do(taken, RollBack(j)), Broadcast)), false)
  {
  }

  lemma SettleIsItsSteps(s: State, j: nat, now: nat)
    requires FlightOk(s) && Enabled(s, Refund(j, now))
    ensures s.inFlight > 0
    ensures SettleAlone(LedgerOf(s), s.jobs[j].reserved, s.jobs[j].started, now)
            == LedgerOf(Do(Do(Do(s, Refund(j, now)), Retire(j)), Broadcast))
  {
    SetJobCount(s.jobs, j, Refunded);
  }

  class CreditAccount {
    const capacity: int
    const parallelism: nat
    var balance: int
    var inFlight: nat
    const changed: N.Notify

    ghost function View(): Ledger
      reads this, changed, changed.waiters
    {
      Ledger(capacity, parallelism, balance, inFlight, changed.View())
    }

    constructor (capacity: int, parallelism: nat)
      ensures fresh(changed) && fresh(changed.waiters) && changed.Valid()
      ensures View() == Ledger(capacity, parallelism, capacity, 0, N.Core(false, 0, EMPTY_VIEW))
    {
      this.capacity, this.parallelism := capacity, parallelism;
      balance, inFlight := capacity, 0;
      changed := new N.Notify();
    }

    method Adjust(credits: int)
      modifies this`balance
      ensures balance == Adjusted(old(balance), credits, capacity)
      ensures balance <= capacity
      ensures I64_MIN <= old(balance) + credits <= capacity <= I64_MAX ==> balance == old(balance) + credits
      ensures capacity <= old(balance) + credits && capacity <= I64_MAX ==> balance == capacity
      ensures old(balance) + credits < I64_MIN <= capacity ==> balance == I64_MIN
    {
      var sum := balance + credits;
      if sum > I64_MAX { sum := I64_MAX; }
      if sum < I64_MIN { sum := I64_MIN; }
      balance := if sum < capacity then sum else capacity;
    }

    method Replenish(credits: nat) returns (wakes: seq<WakerId>)
      requires changed.Valid()
      modifies this`balance, changed`generation, changed.waiters
      ensures changed.Valid() && View() == ReplenishAlone(old(View()), credits)
      ensures inFlight == old(inFlight)
      ensures I64_MIN <= old(balance) && credits <= I64_MAX && capacity <= I64_MAX ==>
                balance == if old(balance) + credits <= capacity then old(balance) + credits else capacity
      ensures credits > I64_MAX && 0 <= old(balance) && capacity <= I64_MAX ==> balance == capacity
      ensures wakes == WakersOf(old(changed.View()).queue.fifo, old(changed.View()).queue.live)
    {
      Adjust(if credits <= I64_MAX then credits else I64_MAX);
      wakes := changed.NotifyWaiters();
    }

    /** Both halves of an admission, and the rollback that undoes the first when the second fails. */
    method Reserve(credits: nat) returns (permit: Option<CpuReservation>, wakes: seq<WakerId>)
      requires changed.Valid()
      modifies this`balance, this`inFlight, changed`generation, changed.waiters
      ensures changed.Valid() && (View(), permit.Some?) == ReserveAlone(old(View()), credits)
      ensures permit.Some?
              <==> 0 < credits <= I64_MAX && old(inFlight) < parallelism && old(balance) >= credits
      ensures permit.Some? ==> balance == old(balance) - credits && inFlight == old(inFlight) + 1
      ensures permit.None? ==> balance == old(balance) && inFlight == old(inFlight)
      ensures old(inFlight) <= parallelism ==> inFlight <= parallelism
      ensures credits == 0 || credits > I64_MAX || old(inFlight) >= parallelism ==>
                changed.View() == old(changed.View()) && wakes == []
      ensures permit.Some? ==> fresh(permit.value) && permit.value.account == this && permit.value.reserved == credits
                               && permit.value.started == None && !permit.value.done
      ensures wakes == if changed.View() == old(changed.View()) then []
                       else WakersOf(old(changed.View()).queue.fifo, old(changed.View()).queue.live)
    {
      wakes := [];
      if credits == 0 || credits > I64_MAX || inFlight >= parallelism { return None, []; }
      inFlight := inFlight + 1;
      if balance >= credits {
        balance := balance - credits;
        var reservation := new CpuReservation(this, credits);
        permit := Some(reservation);
      } else {
        inFlight := inFlight - 1;
        wakes := changed.NotifyWaiters();
        permit := None;
      }
    }
  }

  class CpuReservation {
    const account: CreditAccount
    const reserved: int
    var started: Option<nat>
    var done: bool

    constructor (account: CreditAccount, reserved: int)
      ensures this.account == account && this.reserved == reserved && started == None && !done
    {
      this.account, this.reserved := account, reserved;
      started, done := None, false;
    }

    /** Refuses, as the code panics, a reservation entered twice or already settled. */
    method Enter(now: nat) returns (entered: bool)
      modifies this`started
      ensures entered == (!done && old(started).None?)
      ensures started == if entered then Some(now) else old(started)
    {
      entered := !done && started.None?;
      if entered { started := Some(now); }
    }

    /** Gives back what was reserved less what the turn used by the clock, or takes what it used beyond that. */
    method Reconcile(now: nat)
      requires 0 < reserved <= I64_MAX
      modifies account`balance
      ensures account.balance
              == Adjusted(old(account.balance), Clamp(reserved - Used(started, now)), account.capacity)
      ensures var used := if started.Some? && started.value <= now then now - started.value else 0;
              var left := old(account.balance) + reserved - used;
              used <= I64_MAX && I64_MIN <= left && account.capacity <= I64_MAX ==>
                account.balance == if left < account.capacity then left else account.capacity
    {
      var actual := 0;
      if started.Some? && now > started.value {
        actual := if now - started.value < I64_MAX then now - started.value else I64_MAX;
      }
      var refund := reserved - actual;
      account.Adjust(if refund < I64_MIN then I64_MIN else refund);
    }

    /** `finish` and `drop` both come here; the second finds nothing left to do. */
    method Settle(now: nat) returns (wakes: seq<WakerId>)
      requires account.changed.Valid() && 0 < reserved <= I64_MAX && (!done ==> account.inFlight > 0)
      modifies this`done, account`balance, account`inFlight, account.changed`generation, account.changed.waiters
      ensures done && account.changed.Valid()
      ensures account.View() == if old(done) then old(account.View())
                                else SettleAlone(old(account.View()), reserved, started, now)
      ensures !old(done) ==> account.inFlight == old(account.inFlight) - 1
      ensures var used := if started.Some? && started.value <= now then now - started.value else 0;
              var left := old(account.balance) + reserved - used;
              !old(done) && used <= I64_MAX && I64_MIN <= left && account.capacity <= I64_MAX ==>
                account.balance == if left < account.capacity then left else account.capacity
      ensures wakes == if old(done) then []
                       else WakersOf(old(account.changed.View()).queue.fifo, old(account.changed.View()).queue.live)
    {
      if done { return []; }
      Reconcile(now);
      account.inFlight := account.inFlight - 1;
      done := true;
      wakes := account.changed.NotifyWaiters();
    }
  }
}
