/**
 Exclusive turns (src/owner.rs): one movable value behind an admission flag. A dispatch wins the
 flag, takes the value into a lease, reserves budget and queues a turn; however the turn ends, the
 lease puts the value back first and clears the flag after.
 */
module Owners {
  import opened Common
  import opened Behaviours

  /** The value is modelled by its history: the turns that have changed it, in order. */
  type Value = seq<nat>

  /** An admitted turn: before the take; with the lease at some stage; after the value is back. */
  datatype Stage = Reserving | Queued | Running | Returning

  datatype Turn = Admitted | Leased(value: Value, stage: Stage) | Clearing

  /** `ran` lists the turns whose callback has run or begun to unwind, in order. */
  datatype State = State(admitted: bool, slot: Option<Value>, turns: map<nat, Turn>, ran: Value)

  datatype Label =
    | Dispatch(t: nat)
    | Take(t: nat)
    | Reserve(t: nat, granted: bool)
    | Run(t: nat)
    | EndRun(t: nat)
    | Cancel(t: nat)
    | PutBack(t: nat)
    | Clear(t: nat)

  ghost predicate At(s: State, t: nat, stage: Stage) {
    t in s.turns && s.turns[t].Leased? && s.turns[t].stage == stage
  }

  ghost predicate Enabled(s: State, l: Label) {
    match l
    case Dispatch(t) => t !in s.turns
    case Take(t) => t in s.turns && s.turns[t] == Admitted && s.slot.Some?
    case Reserve(t, _) => At(s, t, Reserving)
    case Run(t) => At(s, t, Queued)
    case EndRun(t) => At(s, t, Running)
    case Cancel(t) => At(s, t, Queued)
    case PutBack(t) => At(s, t, Returning)
    case Clear(t) => t in s.turns && s.turns[t] == Clearing
  }

  /** The compare-exchange on the flag; a busy owner hands the callback back. */
  function DoDispatch(s: State, t: nat): State {
    if s.admitted then s else s.(admitted := true, turns := s.turns[t := Admitted])
  }

  function Do(s: State, l: Label): State
    requires Enabled(s, l)
  {
    match l
    case Dispatch(t) => DoDispatch(s, t)
    case Take(t) => s.(slot := None, turns := s.turns[t := Leased(s.slot.value, Reserving)])
    case Reserve(t, granted) => s.(turns := s.turns[t := s.turns[t].(stage := if granted then Queued else Returning)])
    case Run(t) => s.(turns := s.turns[t := Leased(s.turns[t].value + [t], Running)], ran := s.ran + [t])
    case EndRun(t) => s.(turns := s.turns[t := s.turns[t].(stage := Returning)])
    case Cancel(t) => s.(turns := s.turns[t := s.turns[t].(stage := Returning)])
    case PutBack(t) => s.(slot := Some(s.turns[t].value), turns := s.turns[t := Clearing])
    case Clear(t) => s.(admitted := false, turns := s.turns - {t})
  }

  ghost predicate Init(s: State) {
    s == State(false, Some([]), map[], [])
  }

  ghost predicate Next(s: State, t: State) {
    exists l :: Enabled(s, l) && t == Do(s, l)
  }

  /** The one admitted turn, if there is one, and the value are never in two places and never in none. */
  ghost predicate Inv(s: State) {
    && (forall t, u :: t in s.turns && u in s.turns ==> t == u)
    && (s.admitted <==> exists t :: t in s.turns)
    && (forall t :: t in s.turns ==>
          if s.turns[t].Leased? then s.slot.None? && s.turns[t].value == s.ran else s.slot == Some(s.ran))
    && (!s.admitted ==> s.slot == Some(s.ran))
  }

  lemma StepKeeps(s: State, l: Label)
    requires Inv(s) && Enabled(s, l)
    ensures Inv(Do(s, l))
  {
    var t := Do(s, l);
    if !l.Clear? && (!l.Dispatch? || !s.admitted) { assert l.t in t.turns; }
  }

  lemma InvAt(run: seq<State>, i: nat)
    requires IsRun(Init, Next, run) && i < |run|
    ensures Inv(run[i])
  {
    forall s, t | Inv(s) && Next(s, t) ensures Inv(t) {
      var l :| Enabled(s, l) && t == Do(s, l);
      StepKeeps(s, l);
    }
    Invariance(Init, Next, Inv, run);
  }

  /** The value is in the slot or in exactly one lease, and carries every turn that ran so far, in order. */
  lemma ValueIsInOnePlace(run: seq<State>, i: nat)
    requires IsRun(Init, Next, run) && i < |run|
    ensures var s := run[i];
            if s.slot.Some? then s.slot.value == s.ran && forall t :: t in s.turns ==> !s.turns[t].Leased?
            else exists t :: t in s.turns && s.turns[t].Leased? && s.turns[t].value == s.ran
                             && forall u :: u in s.turns ==> u == t
  {
    InvAt(run, i);
    var s := run[i];
    if s.slot.None? {
      var t :| t in s.turns;
      assert s.turns[t].Leased? && s.turns[t].value == s.ran;
    }
  }

  /** A clear flag means the value is back, so whoever wins it next finds it: the take cannot fail. */
  lemma TakeNeverFails(run: seq<State>, i: nat, t: nat)
    requires IsRun(Init, Next, run) && i < |run| && t in run[i].turns && run[i].turns[t] == Admitted
    ensures run[i].slot == Some(run[i].ran) && Enabled(run[i], Take(t))
  {
    InvAt(run, i);
  }

  lemma ClearFlagMeansPublished(run: seq<State>, i: nat)
    requires IsRun(Init, Next, run) && i < |run| && !run[i].admitted
    ensures run[i].slot == Some(run[i].ran) && run[i].turns == map[]
  {
    InvAt(run, i);
    assert forall t :: t !in run[i].turns;
  }

  // ---------- The objects ----------

  datatype Denied = Busy | Budget | Worker

  /** A dispatch run alone: the flag and the slot afterwards, and the value leased to the submitted turn. */
  function DispatchAlone<T>(admitted: bool, slot: Option<T>, granted: bool): (bool, Option<T>, Option<T>) {
    if admitted || !granted then (admitted, slot, None) else (true, None, slot)
  }

  /** Run back to back, the protocol's steps for one dispatch are one whole call. */
  lemma DispatchIsItsSteps(s: State, t: nat, granted: bool)
    requires Inv(s) && Enabled(s, Dispatch(t))
    ensures var t1 := Do(s, Dispatch(t));
            var t2 := if t in t1.turns then Do(Do(t1, Take(t)), Reserve(t, granted)) else t1;
            var t3 := if t in t2.turns && !granted then Do(Do(t2, PutBack(t)), Clear(t)) else t2;
            (t3.admitted, t3.slot, if t in t3.turns then Some(t3.turns[t].value) else None)
            == DispatchAlone(s.admitted, s.slot, granted)
  {
  }

  /** A queued turn run to its end: the callback's effect, then the value back, then the flag clear. */
  lemma TurnIsItsSteps(s: State, t: nat)
    requires Inv(s) && Enabled(s, Run(t))
    ensures var t1 := Do(Do(s, Run(t)), EndRun(t));
            var t2 := Do(t1, PutBack(t));
            && t1.admitted && t1.slot == None
            && t2.admitted && t2.slot == Some(s.turns[t].value + [t])
            && Do(t2, Clear(t)) == t2.(admitted := false, turns := t2.turns - {t})
  {
  }

  datatype Dispatched<T> = Rejected(reason: Denied) | Submitted(lease: Lease<T>)

  class Owner<T> {
    var admitted: bool
    var slot: Option<T>

    /** While nobody is admitted the value is here. */
    ghost predicate Valid()
      reads this
    {
      admitted || slot.Some?
    }

    constructor (value: T)
      ensures Valid() && !admitted && slot == Some(value)
    {
      admitted, slot := false, Some(value);
    }

    /**
     `dispatch_to` up to the submission. `granted` is the budget's answer and `worker` a preferred
     queue out of `workers`. Every rejection leaves value and flag as they were.
     */
    method Dispatch(worker: Option<nat>, workers: nat, granted: bool) returns (r: Dispatched<T>)
      requires Valid()
      modifies this
      ensures Valid()
      ensures r == Rejected(Worker) <==> worker.Some? && worker.value >= workers
      ensures r == Rejected(Busy) <==> old(admitted) && !(worker.Some? && worker.value >= workers)
      ensures r == Rejected(Worker) ==> admitted == old(admitted) && slot == old(slot)
      ensures r != Rejected(Worker) ==>
                (admitted, slot, if r.Submitted? then r.lease.value else None)
                == DispatchAlone(old(admitted), old(slot), granted)
      ensures r.Submitted? <==> granted && !old(admitted) && !(worker.Some? && worker.value >= workers)
      ensures r.Rejected? ==> admitted == old(admitted) && slot == old(slot)
      ensures r.Submitted? ==> admitted && slot == None && r.lease.value == old(slot)
      ensures r.Submitted? ==> fresh(r.lease) && r.lease.owner == this && r.lease.Holds()
    {
      if worker.Some? && worker.value >= workers { return Rejected(Worker); }
      if admitted { return Rejected(Busy); }
      admitted := true;
      var lease := new Lease<T>(this, slot);
      slot := None;
      if !granted {
        lease.Drop();
        return Rejected(Budget);
      }
      r := Submitted(lease);
    }
  }

  class Lease<T> {
    const owner: Owner<T>
    var value: Option<T>

    /** The owner's value is here and its flag keeps everyone else out. */
    ghost predicate Holds()
      reads this, owner
    {
      value.Some? && owner.admitted && owner.slot.None?
    }

    constructor (owner: Owner<T>, value: Option<T>)
      ensures this.owner == owner && this.value == value
    {
      this.owner, this.value := owner, value;
    }

    /** The first write of the drop: the value is back while the flag is still set. */
    method PutBack()
      requires Holds()
      modifies this, owner`slot
      ensures owner.slot == old(value) && value == None && owner.admitted
    {
      owner.slot := value;
      value := None;
    }

    /** The second: only beside a value that is back may the flag clear. */
    method Clear()
      requires owner.slot.Some?
      modifies owner`admitted
      ensures !owner.admitted && owner.Valid()
    {
      owner.admitted := false;
    }

    method Drop()
      requires Holds()
      modifies this, owner
      ensures owner.Valid() && !owner.admitted && owner.slot == old(value) && value == None
    {
      PutBack();
      Clear();
    }

    /** The submitted turn: the callback runs on the leased value, and a turn dropped unrun returns it as it was. */
    method Turn(callback: T -> T, cancelled: bool)
      requires Holds()
      modifies this, owner
      ensures owner.Valid() && !owner.admitted && value == None
      ensures owner.slot == Some(if cancelled then old(value).value else callback(old(value).value))
    {
      if !cancelled { value := Some(callback(value.value)); }
      Drop();
    }
  }
}
