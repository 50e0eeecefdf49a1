/**
 Read readiness (src/reactor/driver.rs, src/net.rs): the slot's flags and parked waker under one
 lock, a poller that reports transitions only, and `poll_read`'s discipline of taking readiness
 before every read and putting it back after a read that filled its buffer.

 The kernel is a byte count, an end-of-stream mark and one undelivered event: every arrival and
 the end of stream raise the event, a wait collects it, and dispatch applies it to the slot.
 */
module ReadSlots {
  import opened Common
  import opened Behaviours

  // ---------- The slot ----------

  /** What the lock protects; `reader` is the parked waker. */
  datatype Wakers = Wakers(reader: Option<nat>, readable: bool, hangup: bool)

  /** The section of `take_readable_or_park`: readiness is taken, or `waker` is parked. */
  function TakeOrPark(w: Wakers, waker: nat): (r: (Wakers, bool)) {
    if w.readable || w.hangup then (w.(readable := false), true) else (w.(reader := Some(waker)), false)
  }

  /** The section of `poll_readable`: parks unless an edge came meanwhile; says whether to wake at once. */
  function ParkUnlessReady(w: Wakers, waker: nat): (r: (Wakers, bool)) {
    if w.readable || w.hangup then (w, true) else (w.(reader := Some(waker)), false)
  }

  /** What dispatch does to the slot for one event, and whom it wakes. */
  function Deliver(w: Wakers, readable: bool, hangup: bool): (r: (Wakers, Option<nat>)) {
    if readable || hangup then (Wakers(None, true, w.hangup || hangup), w.reader) else (w, None)
  }

  /** The slot as the code keeps it: the fields, changed in place by the registration and by dispatch. */
  class Slot {
    var reader: Option<nat>
    var readable: bool
    var hangup: bool

    ghost function View(): Wakers
      reads this
    {
      Wakers(reader, readable, hangup)
    }

    /** Registered readable: anything that arrived earlier raised an edge that is gone. */
    constructor ()
      ensures View() == Wakers(None, true, false)
    {
      reader, readable, hangup := None, true, false;
    }

    method TakeReadableOrPark(waker: nat) returns (taken: bool)
      modifies this
      ensures (View(), taken) == TakeOrPark(old(View()), waker)
      ensures taken <==> old(readable) || old(hangup)
      ensures hangup == old(hangup) && !readable && reader == if taken then old(reader) else Some(waker)
    {
      if readable || hangup {
        readable := false;
        return true;
      }
      if reader != Some(waker) {
        reader := Some(waker);
      }
      taken := false;
    }

    method MarkReadable()
      modifies this
      ensures View() == old(View()).(readable := true)
    {
      readable := true;
    }

    method PollReadable(waker: nat) returns (wakeNow: bool)
      modifies this
      ensures (View(), wakeNow) == ParkUnlessReady(old(View()), waker)
      ensures wakeNow <==> readable || hangup
      ensures readable == old(readable) && hangup == old(hangup)
      ensures reader == if wakeNow then old(reader) else Some(waker)
    {
      if readable || hangup {
        wakeNow := true;
      } else {
        if reader != Some(waker) {
          reader := Some(waker);
        }
        wakeNow := false;
      }
    }

    method Dispatch(eventReadable: bool, eventHangup: bool) returns (woken: Option<nat>)
      modifies this
      ensures (View(), woken) == Deliver(old(View()), eventReadable, eventHangup)
      ensures readable == (old(readable) || eventReadable || eventHangup) && hangup == (old(hangup) || eventHangup)
      ensures if eventReadable || eventHangup then woken == old(reader) && reader == None
              else woken == None && reader == old(reader)
    {
      woken := None;
      if eventHangup {
        hangup := true;
      }
      if eventReadable || eventHangup {
        readable := true;
        woken := reader;
        reader := None;
      }
    }
  }

  // ---------- The protocol ----------

  /**
   The reading task: between polls, or inside `poll_read` with a buffer of `len` bytes: about to
   `recv`, about to ask how much is pending after a read that filled the buffer, about to put
   readiness back, or about to park after the socket would have blocked.
   */
  datatype Pc = Idle | Receiving(len: nat) | Asking | Marking | Blocking

  /** An event as the kernel keeps it and as the reactor carries it from the wait to dispatch. */
  datatype Event = Event(readable: bool, hangup: bool)

  const NO_EVENT := Event(false, false)

  /**
   `avail` and `eof` are the socket; `raised` the undelivered event and `carried` the one between
   wait and dispatch; `parked` says the last poll returned pending and nobody woke the reader since;
   `wakes` are wakers taken at dispatch and not called yet. `missed` says that a read failed with
   some other error beside data that nothing else announces, and that no edge was raised since.
   */
  datatype State = State(slot: Wakers, avail: nat, eof: bool, raised: Event, carried: Event,
                         pc: Pc, parked: bool, wakes: multiset<nat>, missed: bool)

  /** The one task that reads this socket, and its waker. */
  const READER: nat := 0

  datatype Label =
    | Arrive(bytes: nat)
    | HangUp
    | Collect
    | Dispatch
    | Wake(w: nat)
    | BeginPoll(len: nat)
    | Receive
    | Interrupted
    | Fail
    | Ask(fails: bool)
    | Mark
    | Park

  ghost predicate Enabled(s: State, l: Label) {
    match l
    case Arrive(bytes) => bytes > 0 && !s.eof
    case HangUp => !s.eof
    case Collect => s.carried == NO_EVENT
    case Dispatch => s.carried != NO_EVENT
    case Wake(w) => w in s.wakes
    case BeginPoll(_) => s.pc == Idle
    case Receive => s.pc.Receiving?
    case Interrupted => s.pc.Receiving?
    case Fail => s.pc.Receiving?
    case Ask(_) => s.pc == Asking
    case Mark => s.pc == Marking
    case Park => s.pc == Blocking
  }

  function DoDispatch(s: State): State {
    var (slot, woken) := Deliver(s.slot, s.carried.readable, s.carried.hangup);
    s.(slot := slot, carried := NO_EVENT, wakes := s.wakes + Bag(woken))
  }

  function DoBeginPoll(s: State, len: nat): State {
    var (slot, taken) := TakeOrPark(s.slot, READER);
    s.(slot := slot, pc := if taken then Receiving(len) else Idle, parked := !taken)
  }

  /** `recv`: would block on an open empty socket, else takes what fits; a full buffer asks for more. */
  function DoReceive(s: State): State
    requires s.pc.Receiving?
  {
    if s.avail == 0 && !s.eof then s.(pc := Blocking)
    else
      var n := if s.pc.len < s.avail then s.pc.len else s.avail;
      s.(avail := s.avail - n, pc := if n == s.pc.len then Asking else Idle)
  }

  /** How much is pending; a failing query counts as more. */
  function DoAsk(s: State, fails: bool): State {
    s.(pc := if fails || s.avail > 0 then Marking else Idle)
  }

  function DoPark(s: State): State {
    var (slot, now) := ParkUnlessReady(s.slot, READER);
    s.(slot := slot, pc := Idle, parked := !now)
  }

  /** What makes a failed read miss data: bytes are there, and neither the slot nor an event says so. */
  predicate FailsBesideData(s: State) {
    s.avail > 0 && !s.slot.readable && !s.slot.hangup && !Undelivered(s)
  }

  function Do(s: State, l: Label): State
    requires Enabled(s, l)
  {
    match l
    case Arrive(bytes) => s.(avail := s.avail + bytes, raised := s.raised.(readable := true), missed := false)
    case HangUp => s.(eof := true, raised := s.raised.(hangup := true), missed := false)
    case Collect => s.(carried := s.raised, raised := NO_EVENT)
    case Dispatch => DoDispatch(s)
    case Wake(w) => s.(wakes := s.wakes - multiset{w}, parked := s.parked && w != READER)
    case BeginPoll(len) => DoBeginPoll(s, len)
    case Receive => DoReceive(s)
    case Interrupted => s
    case Fail => s.(pc := Idle, missed := FailsBesideData(s))
    case Ask(fails) => DoAsk(s, fails)
    case Mark => s.(slot := s.slot.(readable := true), pc := Idle)
    case Park => DoPark(s)
  }

  /** A socket just registered, in whatever state it already is. */
  ghost predicate Init(s: State) {
    s == State(Wakers(None, true, false), s.avail, s.eof, Event(s.avail > 0, s.eof), NO_EVENT,
               Idle, false, multiset{}, false)
  }

  ghost predicate Next(s: State, t: State) {
    exists l :: Enabled(s, l) && t == Do(s, l)
  }

  predicate Undelivered(s: State) {
    s.raised != NO_EVENT || s.carried != NO_EVENT
  }

  /** The reader is going to look at the socket, or at the slot, before it can sleep. */
  predicate Looking(pc: Pc) {
    pc.Receiving? || pc == Marking
  }

  /**
   Data in the socket is announced by the slot, by an event under way, or by a reader that is going
   to look; what arrives while a full read asks for more raises an event.
   */
  predicate Announced(s: State) {
    s.slot.readable || s.slot.hangup || Looking(s.pc) || s.pc == Asking || Undelivered(s) || s.avail == 0
  }

  ghost predicate Inv(s: State) {
    // End of stream is latched in the slot or its event is still under way.
    && (s.eof ==> s.slot.hangup || s.raised.hangup || s.carried.hangup)
    && (Announced(s) || s.missed)
    && (s.missed ==> s.pc == Idle && FailsBesideData(s))
    && (s.parked ==> s.pc == Idle && (s.slot.reader == Some(READER) || READER in s.wakes))
    && (s.parked && READER !in s.wakes ==> !s.slot.readable && !s.slot.hangup)
    && (s.slot.reader.Some? ==> s.slot.reader.value == READER)
  }

  lemma KernelStepKeeps(s: State, l: Label)
    requires Inv(s) && Enabled(s, l) && (l.Arrive? || l.HangUp? || l.Collect? || l.Dispatch? || l.Wake?)
    ensures Inv(Do(s, l))
  {
  }

  lemma ReadStepKeeps(s: State, l: Label)
    requires Inv(s) && Enabled(s, l) && !(l.Arrive? || l.HangUp? || l.Collect? || l.Dispatch? || l.Wake?)
    ensures Inv(Do(s, l))
  {
  }

  lemma StepKeeps(s: State, l: Label)
    requires Inv(s) && Enabled(s, l)
    ensures Inv(Do(s, l))
  {
    if l.Arrive? || l.HangUp? || l.Collect? || l.Dispatch? || l.Wake? {
      KernelStepKeeps(s, l);
    } else {
      ReadStepKeeps(s, l);
    }
  }

  lemma InvAt(run: seq<State>, i: nat)
    requires IsRun(Init, Next, run) && i < |run|
    ensures Inv(run[i])
  {
    forall s, t | Inv(s) && Next(s, t) ensures Inv(t) {
      var l :| Enabled(s, l) && t == Do(s, l);
      StepKeeps(s, l);
    }
    Invariance(Init, Next, Inv, run);
  }

  /**
   The exact step at which data stops being announced: a read that fails, with another error, beside
   bytes that neither the slot nor an event speaks for. Only a new edge mends it while nobody reads.
   */
  lemma OnlyAFailedReadMisses(s: State, l: Label)
    requires Inv(s) && Enabled(s, l)
    ensures Announced(s) ==> (!Announced(Do(s, l)) <==> l == Fail && FailsBesideData(s))
    ensures !Announced(s) && s.pc == Idle ==> (Announced(Do(s, l)) <==> l.Arrive? || l.HangUp?)
  {
  }

  /**
   No edge is lost: a reader parked with no wake on the way has its waker in a slot that is neither
   readable nor hung up; and the socket is empty and open, or an event is still to be delivered, if
   and only if no read has failed beside unannounced data since the last edge.
   */
  lemma ParkedReaderMissesNothing(run: seq<State>, i: nat)
    requires IsRun(Init, Next, run) && i < |run| && run[i].parked && READER !in run[i].wakes
    ensures run[i].slot == Wakers(Some(READER), false, false)
    ensures !run[i].missed <==> (run[i].avail == 0 && !run[i].eof) || Undelivered(run[i])
  {
    InvAt(run, i);
  }

  /** A run at which it fails: a failed read has taken readiness and does not put it back. */
  lemma FailedReadMayMissData() returns (run: seq<State>)
    ensures IsRun(Init, Next, run)
    ensures var s := run[|run| - 1]; s.parked && s.wakes == multiset{} && s.avail > 0 && !Undelivered(s)
  {
    var s0 := State(Wakers(None, true, false), 1, false, Event(true, false), NO_EVENT, Idle, false, multiset{}, false);
    var s1 := Do(s0, Collect);
    var s2 := Do(s1, Dispatch);
    var s3 := Do(s2, BeginPoll(1));
    var s4 := Do(s3, Fail);
    var s5 := Do(s4, BeginPoll(1));
    run := [s0, s1, s2, s3, s4, s5];
    assert Next(s0, s1) && Next(s1, s2) && Next(s2, s3) && Next(s3, s4) && Next(s4, s5);
  }

  /** Once the hang-up is latched, no read, however short, hides it: the next poll takes readiness again. */
  lemma HangUpSurvivesReads(s: State, l: Label, len: nat)
    requires Inv(s) && Enabled(s, l) && s.slot.hangup
    ensures Do(s, l).slot.hangup
    ensures Do(s, l).pc == Idle ==> DoBeginPoll(Do(s, l), len).pc == Receiving(len)
  {
  }

  // ---------- The reading object ----------

  /** How `poll_read` ends; `woken` says that the caller scheduled itself again at once. */
  datatype Outcome = Parked(woken: bool) | Got(n: nat) | Failed(error: int)

  /**
   A whole `poll_read` with nobody in between, on the slot and the bytes the socket holds; `fault` is
   an error of `recv`.
   */
  function ReadAlone(w: Wakers, avail: nat, eof: bool, len: nat, waker: nat, fault: Option<int>, fails: bool)
    : (Wakers, nat, Outcome)
  {
    var (taken, ready) := TakeOrPark(w, waker);
    if !ready then (taken, avail, Parked(false))
    else if fault.Some? then (taken, avail, Failed(fault.value))
    else if avail == 0 && !eof then
      var (after, now) := ParkUnlessReady(taken, waker);
      (after, avail, Parked(now))
    else
      var n := Min(len, avail);
      var more := n == len && (fails || avail - n > 0);
      (taken.(readable := taken.readable || more), avail - n, Got(n))
  }

  /** A read that leaves bytes behind leaves readiness behind, unless it failed; one that parks has found nothing. */
  lemma ReadLeavesNothingUnannounced(w: Wakers, avail: nat, eof: bool, len: nat, waker: nat, fault: Option<int>,
      fails: bool)
    ensures var (after, left, outcome) := ReadAlone(w, avail, eof, len, waker, fault, fails);
            match outcome
            case Got(n) =>
              && n <= len && n + left == avail && (left > 0 ==> n == len && after.readable)
              && (w.readable || w.hangup) && fault == None && (avail > 0 || eof)
              && after == Wakers(w.reader, n == len && (fails || left > 0), w.hangup)
            case Failed(error) =>
              fault == Some(error) && left == avail && after == Wakers(w.reader, false, w.hangup)
              && (w.readable || w.hangup)
            case Parked(woken) =>
              && left == avail
              && (if woken then after.hangup else after == Wakers(Some(waker), false, false))
              && (w.readable || w.hangup ==> avail == 0 && !eof && fault == None)
  {
  }

  /** Run back to back, the protocol's steps for one read are one whole call. */
  lemma ReadIsItsSteps(s: State, len: nat, fault: Option<int>, fails: bool)
    requires s.pc == Idle
    ensures var (slot, left, outcome) := ReadAlone(s.slot, s.avail, s.eof, len, READER, fault, fails);
            var t1 := Do(s, BeginPoll(len));
            var t2 := if t1.pc.Receiving? then Do(t1, if fault.Some? then Fail else Receive) else t1;
            var t3 := if t2.pc == Asking then Do(t2, Ask(fails)) else t2;
            var t := if t3.pc == Marking then Do(t3, Mark) else if t3.pc == Blocking then Do(t3, Park) else t3;
            && t.pc == Idle && t.slot == slot && t.avail == left
            && t.parked == (outcome == Parked(false))
  {
  }

  /** What one `recv` answers. */
  datatype Received = Interruption | WouldBlock | Error(error: int) | Bytes(n: nat)

  class Socket {
    var avail: nat
    const eof: bool

    constructor (avail: nat, eof: bool)
      ensures this.avail == avail && this.eof == eof
    {
      this.avail, this.eof := avail, eof;
    }

    /** The kernel's `recv`, after `signals` interruptions, with its `fault` if there is one. */
    method Recv(len: nat, signals: nat, fault: Option<int>) returns (r: Received)
      modifies this
      ensures r == if signals > 0 then Interruption
                   else if fault.Some? then Error(fault.value)
                   else if old(avail) == 0 && !eof then WouldBlock
                   else Bytes(Min(len, old(avail)))
      ensures avail == old(avail) - if r.Bytes? then r.n else 0
    {
      if signals > 0 { return Interruption; }
      if fault.Some? { return Error(fault.value); }
      if avail == 0 && !eof { return WouldBlock; }
      r := Bytes(if len < avail then len else avail);
      avail := avail - r.n;
    }
  }

  class TcpStream {
    const slot: Slot
    const socket: Socket

    constructor (slot: Slot, socket: Socket)
      ensures this.slot == slot && this.socket == socket
    {
      this.slot, this.socket := slot, socket;
    }

    /** `poll_read`; `signals` interruptions come first and `fails` says the pending query fails. */
    method PollRead(len: nat, waker: nat, signals: nat, fault: Option<int>, fails: bool) returns (outcome: Outcome)
      modifies slot, socket
      ensures (slot.View(), socket.avail, outcome)
              == ReadAlone(old(slot.View()), old(socket.avail), socket.eof, len, waker, fault, fails)
    {
      var ready := slot.TakeReadableOrPark(waker);
      if !ready { return Parked(false); }
      ghost var taken := slot.View();
      var left := signals;
      while true
        invariant slot.View() == taken && socket.avail == old(socket.avail)
        decreases left
      {
        var received := socket.Recv(len, left, fault);
        match received
        case Interruption =>
          left := left - 1;
        case WouldBlock =>
          var now := slot.PollReadable(waker);
          return Parked(now);
        case Error(error) =>
          return Failed(error);
        case Bytes(n) =>
          if n == len && (fails || socket.avail > 0) { slot.MarkReadable(); }
          return Got(n);
      }
    }
  }
}
