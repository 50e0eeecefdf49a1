/**
 The parallel loop (src/par.rs): pieces of an index range that split themselves, a counter of
 outstanding pieces, cancellation, and a future that joins. The pool is a bag of queued pieces,
 each of which it runs once or drops once. Every atomic operation, every call of the body and
 every submission is a step.
 */
module ParLoops {
  import opened Common
  import opened Behaviours

  const PIECES_PER_WORKER: nat := 8

  /** How small a piece gets by default. */
  function DefaultLeaf(start: nat, end: nat, workers: nat): (leaf: nat)
    requires workers > 0
    ensures leaf >= 1
  {
    var len := if end > start then end - start else 0;
    var leaf := len / (workers * PIECES_PER_WORKER);
    if leaf < 1 then 1 else leaf
  }

  /** It is one piece in eight for each worker, rounded down, and a range too short for that goes one by one. */
  lemma LeafIsAShare(start: nat, end: nat, workers: nat)
    requires workers > 0
    ensures var len, leaf := if start < end then end - start else 0, DefaultLeaf(start, end, workers);
            if len < workers * 8 then leaf == 1
            else leaf * (workers * 8) <= len < leaf * (workers * 8) + workers * 8
  {
    var len, pieces := if start < end then end - start else 0, workers * 8;
    assert len == len / pieces * pieces + len % pieces;
  }

  // ---------- One piece's work, in order ----------

  /** The right halves a piece gave away, last to first, tile what lies between its own end and the old one. */
  ghost predicate Tiles(given: seq<(nat, nat)>, from: nat, to: nat) {
    if given == [] then from == to
    else
      var last := given[|given| - 1];
      last.0 == from && last.0 < last.1 && Tiles(given[..|given| - 1], last.1, to)
  }

  lemma {:induction false} TilesPrepend(given: seq<(nat, nat)>, from: nat, middle: nat, to: nat)
    requires Tiles(given, from, middle) && middle < to
    ensures Tiles([(middle, to)] + given, from, to)
  {
    var all := [(middle, to)] + given;
    if given == [] {
      assert all[..0] == [];
    } else {
      var n := |given| - 1;
      TilesPrepend(given[..n], given[n].1, middle, to);
      assert all[..n + 1] == [(middle, to)] + given[..n] && all[n + 1] == given[n];
    }
  }

  /** The halves that splitting gives away, outermost first, and where the leaf that is kept ends. */
  function Given(lo: nat, hi: nat, leaf: nat): seq<(nat, nat)>
    requires leaf >= 1
    decreases hi
  {
    if hi > lo && hi - lo > leaf then [(lo + (hi - lo) / 2, hi)] + Given(lo, lo + (hi - lo) / 2, leaf) else []
  }

  function Kept(lo: nat, hi: nat, leaf: nat): (kept: nat)
    requires leaf >= 1
    ensures lo <= hi ==> lo <= kept <= hi
    decreases hi
  {
    if hi > lo && hi - lo > leaf then Kept(lo, lo + (hi - lo) / 2, leaf) else hi
  }

  /** Each of them is the upper half of what was left, which was more than a leaf, and the next starts below it. */
  lemma {:induction false} GivenAreHalves(lo: nat, hi: nat, leaf: nat, k: nat)
    requires leaf >= 1 && lo <= hi && k < |Given(lo, hi, leaf)|
    ensures var given := Given(lo, hi, leaf);
            && given[0].1 == hi
            && given[k].1 - lo > leaf && given[k].0 == lo + (given[k].1 - lo) / 2
            && (if k + 1 < |given| then given[k + 1].1 == given[k].0 else Kept(lo, hi, leaf) == given[k].0)
    decreases hi
  {
    var middle := lo + (hi - lo) / 2;
    if k > 0 { GivenAreHalves(lo, middle, leaf, k - 1); }
    else if |Given(lo, hi, leaf)| > 1 { GivenAreHalves(lo, middle, leaf, 0); }
  }

  /** They tile the rest of the range, and what is kept is a leaf and not empty. */
  lemma {:induction false} GivenTiles(lo: nat, hi: nat, leaf: nat)
    requires leaf >= 1 && lo <= hi
    ensures Tiles(Given(lo, hi, leaf), Kept(lo, hi, leaf), hi)
    ensures Kept(lo, hi, leaf) - lo <= leaf
    ensures lo < hi ==> lo < Kept(lo, hi, leaf)
    decreases hi
  {
    if hi - lo > leaf {
      var middle := lo + (hi - lo) / 2;
      GivenTiles(lo, middle, leaf);
      TilesPrepend(Given(lo, middle, leaf), Kept(lo, hi, leaf), middle, hi);
    }
  }

  /** Every index of the tiled stretch lies in exactly one tile. */
  lemma {:induction false} TilesCoverOnce(given: seq<(nat, nat)>, from: nat, to: nat, x: nat)
    requires Tiles(given, from, to)
    ensures from <= to
    ensures from <= x < to <==> exists k :: 0 <= k < |given| && given[k].0 <= x < given[k].1
    ensures forall j, k :: 0 <= j < k < |given| ==> !(given[j].0 <= x < given[j].1 && given[k].0 <= x < given[k].1)
  {
    if given != [] {
      var n := |given| - 1;
      var rest := given[..n];
      TilesCoverOnce(rest, given[n].1, to, x);
      if given[n].1 <= x < to {
        var k :| 0 <= k < |rest| && rest[k].0 <= x < rest[k].1;
        assert given[k] == rest[k];
      }
      forall k | 0 <= k < n ensures given[k] == rest[k] {}
    }
  }

  /** The indices from `lo` up to `hi`, in order. */
  function Indices(lo: nat, hi: nat): (r: seq<nat>)
    decreases hi - lo
    ensures |r| == if lo < hi then hi - lo else 0
    ensures forall k :: 0 <= k < |r| ==> r[k] == lo + k
  {
    if lo >= hi then [] else [lo] + Indices(lo + 1, hi)
  }

  lemma {:induction false} IndicesGrow(lo: nat, i: nat)
    requires lo <= i
    ensures Indices(lo, i + 1) == Indices(lo, i) + [i]
    decreases i - lo
  {
    if lo < i { IndicesGrow(lo + 1, i); }
  }

  lemma {:induction false} IndicesSplit(a: nat, b: nat, c: nat)
    requires a <= b <= c
    ensures Indices(a, c) == Indices(a, b) + Indices(b, c)
    decreases b - a
  {
    if a < b { IndicesSplit(a + 1, b, c); }
  }

  /** The indices of the ranges in the bag, newest range first. */
  function BagOf(bag: seq<(nat, nat)>): seq<nat> {
    if bag == [] then [] else Indices(bag[|bag| - 1].0, bag[|bag| - 1].1) + BagOf(bag[..|bag| - 1])
  }

  lemma {:induction false} BagOfJoined(a: seq<(nat, nat)>, b: seq<(nat, nat)>)
    ensures BagOf(a + b) == BagOf(b) + BagOf(a)
  {
    if b == [] {
      assert a + b == a;
    } else {
      var n := |b| - 1;
      assert (a + b)[..|a + b| - 1] == a + b[..n];
      BagOfJoined(a, b[..n]);
    }
  }

  /** Tiles hold what they tile, and no tile is empty. */
  lemma {:induction false} TilesHoldTheRange(given: seq<(nat, nat)>, from: nat, to: nat)
    requires Tiles(given, from, to)
    ensures from <= to && BagOf(given) == Indices(from, to)
    ensures forall k :: 0 <= k < |given| ==> given[k].0 < given[k].1
  {
    if given != [] {
      var n := |given| - 1;
      TilesHoldTheRange(given[..n], given[n].1, to);
      IndicesSplit(from, given[n].1, to);
      forall k | 0 <= k < n ensures given[k] == given[..n][k] {}
    }
  }

  /** What the pieces of one loop share. */
  class Shared {
    var outstanding: nat
    var finished: bool
    var waiter: Option<nat>

    constructor ()
      ensures outstanding == 1 && !finished && waiter == None
    {
      outstanding, finished, waiter := 1, false, None;
    }

    /** `work`: gives right halves away, each counted first, until the rest is a leaf, then runs the rest. */
    method Work(start: nat, end: nat, leaf: nat, cancelled: bool) returns (given: seq<(nat, nat)>, ran: seq<nat>)
      requires leaf >= 1
      modifies this`outstanding
      ensures outstanding == old(outstanding) + |given|
      ensures given == if cancelled then [] else Given(start, end, leaf)
      ensures ran == if cancelled then [] else Indices(start, Kept(start, end, leaf))
    {
      given, ran := [], [];
      if cancelled { return; }
      var kept: nat := end;
      while kept > start && kept - start > leaf
        invariant given + Given(start, kept, leaf) == Given(start, end, leaf)
        invariant Kept(start, kept, leaf) == Kept(start, end, leaf)
        invariant outstanding == old(outstanding) + |given|
      {
        var middle := start + (kept - start) / 2;
        Regroup(given, [(middle, kept)], Given(start, middle, leaf));
        outstanding := outstanding + 1;
        given := given + [(middle, kept)];
        kept := middle;
      }
      if kept <= start { return; }
      for index := start to kept
        invariant ran == Indices(start, index) && outstanding == old(outstanding) + |given|
      {
        IndicesGrow(start, index);
        ran := ran + [index];
      }
    }

    /** `retire`: the last piece sets `finished` and takes the waker to call. */
    method Retire() returns (wake: Option<nat>)
      requires outstanding > 0
      modifies this
      ensures (outstanding, finished, waiter.Some?, wake.Some?)
              == RetireAlone(old(outstanding), old(finished), old(waiter).Some?)
      ensures waiter == (if outstanding == 0 then None else old(waiter))
      ensures wake == if outstanding == 0 then old(waiter) else None
    {
      outstanding := outstanding - 1;
      wake := None;
      if outstanding == 0 {
        finished := true;
        wake := waiter;
        waiter := None;
      }
    }
  }

  /** Counter, flag, whether a waker is left registered, and whether one is called. */
  function RetireAlone(outstanding: nat, finished: bool, waiter: bool): (nat, bool, bool, bool)
    requires outstanding > 0
  {
    if outstanding == 1 then (0, true, false, waiter) else (outstanding - 1, finished, waiter, false)
  }

  /** One turn on the newest piece: what it ran and what it gave away are what it was to run. */
  lemma NewestAccounted(bag: seq<(nat, nat)>, leaf: nat)
    requires leaf >= 1 && bag != [] && bag[|bag| - 1].0 < bag[|bag| - 1].1
    ensures var piece, rest := bag[|bag| - 1], bag[..|bag| - 1];
            && Indices(piece.0, Kept(piece.0, piece.1, leaf)) + BagOf(rest + Given(piece.0, piece.1, leaf))
                == BagOf(bag)
            && piece.0 < Kept(piece.0, piece.1, leaf)
            && forall given :: given in Given(piece.0, piece.1, leaf) ==> given.0 < given.1
  {
    var piece, rest := bag[|bag| - 1], bag[..|bag| - 1];
    var given, kept := Given(piece.0, piece.1, leaf), Kept(piece.0, piece.1, leaf);
    GivenTiles(piece.0, piece.1, leaf);
    TilesHoldTheRange(given, kept, piece.1);
    IndicesSplit(piece.0, kept, piece.1);
    BagOfJoined(rest, given);
    Regroup(Indices(piece.0, kept), BagOf(given), BagOf(rest));
  }

  /**
   A whole loop on a pool of one worker that runs its newest piece first: the splitting is undone,
   every index runs exactly once and in order, and the last piece to retire finishes the loop.
   */
  method RunAlone(start: nat, end: nat, leaf: nat) returns (shared: Shared, ran: seq<nat>)
    requires leaf >= 1 && start < end
    ensures shared.finished && shared.outstanding == 0
    ensures ran == Indices(start, end)
  {
    shared := new Shared();
    ran := [];
    var bag := [(start, end)];
    assert bag[..0] == [];
    while bag != []
      invariant fresh(shared) && shared.outstanding == |bag| && shared.finished == (bag == [])
      invariant forall k :: 0 <= k < |bag| ==> bag[k].0 < bag[k].1
      invariant ran + BagOf(bag) == Indices(start, end)
      decreases |BagOf(bag)|
    {
      var piece, rest := bag[|bag| - 1], bag[..|bag| - 1];
      NewestAccounted(bag, leaf);
      var given, more := shared.Work(piece.0, piece.1, leaf, false);
      Regroup(ran, more, BagOf(rest + given));
      ran, bag := ran + more, rest + given;
      var wake := shared.Retire();
    }
  }

  // ---------- The protocol ----------

  /**
   A piece's life: in the pool's bag; past its cancel check and splitting; having counted a right
   half it is about to publish; running its leaf; or being dropped, about to retire.
   */
  datatype Phase = Queued | Splitting | Counted(middle: nat) | Running | Retiring

  /** `lo..hi` is what the piece still has to run; `ran` is how many indices it ran. */
  datatype Piece = Piece(lo: nat, hi: nat, phase: Phase, ran: nat)

  /** The last retirement: nothing yet, about to set `finished`, to take the waker, to call it, or over. */
  datatype Finisher = NotYet | MustStore | MustTake | MustWake | Over

  /** The joining future: not started, between its looks at `finished`, parked, ready, or dropped. */
  datatype Join = Unstarted | Looking | MustPark | LookingAgain | Parked | Joined | Dropped(unstarted: bool)

  /**
   `runs` is every index the body was called with, in order; `lost` says that the pool dropped a
   piece it had not run; `scheduled` that the joiner was woken. A panic and a pool found gone cancel.
   */
  datatype State = State(start: nat, end: nat, leaf: nat, cancelled: bool, outstanding: nat, finished: bool,
                         waiter: bool, pieces: map<nat, Piece>, finisher: Finisher, join: Join,
                         scheduled: bool, runs: seq<nat>, lost: bool)

  datatype Label =
    | Start(p: nat)
    | StartNothing
    | Pickup(p: nat, poolAlive: bool)
    | Count(p: nat)
    | Submit(p: nat, q: nat)
    | EndSplit(p: nat)
    | Body(p: nat, panics: bool)
    | EndBody(p: nat)
    | Lose(p: nat)
    | Retire(p: nat)
    | StoreFinished
    | TakeWaiter
    | WakeWaiter
    | Cancel
    | PollAgain
    | Look
    | Park
    | LookAgain
    | DropLoop

  ghost predicate Enabled(s: State, l: Label) {
    match l
    case Start(p) => s.join == Unstarted && p !in s.pieces && s.start < s.end && !s.cancelled
    case StartNothing => s.join == Unstarted && (s.start >= s.end || s.cancelled)
    case Pickup(p, _) => p in s.pieces && s.pieces[p].phase == Queued
    case Count(p) => p in s.pieces && s.pieces[p].phase == Splitting && s.pieces[p].hi - s.pieces[p].lo > s.leaf
    case Submit(p, q) => p in s.pieces && s.pieces[p].phase.Counted? && q !in s.pieces
    case EndSplit(p) => p in s.pieces && s.pieces[p].phase == Splitting && s.pieces[p].hi - s.pieces[p].lo <= s.leaf
    case Body(p, _) => p in s.pieces && s.pieces[p].phase == Running && s.pieces[p].lo < s.pieces[p].hi
    case EndBody(p) => p in s.pieces && s.pieces[p].phase == Running && s.pieces[p].lo >= s.pieces[p].hi
    case Lose(p) => p in s.pieces && s.pieces[p].phase == Queued
    case Retire(p) => p in s.pieces && s.pieces[p].phase == Retiring
    case StoreFinished => s.finisher == MustStore
    case TakeWaiter => s.finisher == MustTake
    case WakeWaiter => s.finisher == MustWake
    case Cancel => true
    case PollAgain => s.join == Parked
    case Look => s.join == Looking
    case Park => s.join == MustPark
    case LookAgain => s.join == LookingAgain
    case DropLoop => s.join == Unstarted || s.join == Parked
  }

  function With(s: State, p: nat, piece: Piece): State {
    s.(pieces := s.pieces[p := piece])
  }

  /** `retire`: whoever brings the count to zero finishes the loop. */
  function Retired(s: State): State {
    s.(outstanding := if s.outstanding > 0 then s.outstanding - 1 else 0,
       finisher := if s.outstanding == 1 then MustStore else s.finisher)
  }

  /** A piece given up before its indices ran. */
  function Abandoned(s: State, p: nat): State
    requires p in s.pieces
  {
    With(s, p, s.pieces[p].(lo := s.pieces[p].hi, phase := Retiring))
  }

  function DoPickup(s: State, p: nat, poolAlive: bool): State
    requires p in s.pieces
  {
    if !poolAlive then Abandoned(s, p).(cancelled := true)
    else if s.cancelled then Abandoned(s, p)
    else With(s, p, s.pieces[p].(phase := Splitting))
  }

  /** Counted before it is published: the right half joins the bag, the left half stays. */
  function DoSubmit(s: State, p: nat, q: nat): State
    requires p in s.pieces && s.pieces[p].phase.Counted?
  {
    var piece := s.pieces[p];
    var middle := piece.phase.middle;
    With(With(s, p, piece.(hi := middle, phase := Splitting)), q, Piece(middle, piece.hi, Queued, 0))
  }

  function DoBody(s: State, p: nat, panics: bool): State
    requires p in s.pieces
  {
    var piece := s.pieces[p];
    var t := With(s, p, piece.(lo := piece.lo + 1, ran := piece.ran + 1)).(runs := s.runs + [piece.lo]);
    if panics then Abandoned(t, p).(cancelled := true) else t
  }

  function Do(s: State, l: Label): State
    requires Enabled(s, l)
  {
    match l
    case Start(p) => With(s, p, Piece(s.start, s.end, Queued, 0)).(join := Looking)
    case StartNothing => Retired(s).(join := Joined)
    case Pickup(p, poolAlive) => DoPickup(s, p, poolAlive)
    case Count(p) =>
      var piece := s.pieces[p];
      With(s, p, piece.(phase := Counted(piece.lo + (piece.hi - piece.lo) / 2))).(outstanding := s.outstanding + 1)
    case Submit(p, q) => DoSubmit(s, p, q)
    case EndSplit(p) => With(s, p, s.pieces[p].(phase := Running))
    case Body(p, panics) => DoBody(s, p, panics)
    case EndBody(p) => With(s, p, s.pieces[p].(phase := Retiring))
    case Lose(p) => Abandoned(s, p).(lost := true)
    case Retire(p) => Retired(s.(pieces := s.pieces - {p}))
    case StoreFinished => s.(finished := true, finisher := MustTake)
    case TakeWaiter => s.(waiter := false, finisher := if s.waiter then MustWake else Over)
    case WakeWaiter => s.(scheduled := true, finisher := Over)
    case Cancel => s.(cancelled := true)
    case PollAgain => s.(join := Looking, scheduled := false)
    case Look => s.(join := if s.finished then Joined else MustPark)
    case Park => s.(waiter := true, join := LookingAgain)
    case LookAgain => s.(join := if s.finished then Joined else Parked)
    case DropLoop => s.(cancelled := true, join := Dropped(s.join == Unstarted))
  }

  /** A loop just made: one piece is outstanding, the whole range, not handed over yet. */
  ghost predicate Init(s: State) {
    && s.leaf >= 1
    && s == State(s.start, s.end, s.leaf, s.cancelled, 1, false, false, map[], NotYet, Unstarted, false, [], false)
  }

  ghost predicate Next(s: State, t: State) {
    exists l :: Enabled(s, l) && t == Do(s, l)
  }

  // ---------- The invariant ----------

  function Publishing(pieces: map<nat, Piece>): set<nat> {
    set p | p in pieces && pieces[p].phase.Counted?
  }

  /** The root counts as a piece until it is handed over or retired; dropped unstarted, it stays counted. */
  predicate RootLeft(s: State) {
    s.join == Unstarted || s.join == Dropped(true)
  }

  ghost predicate Counting(s: State) {
    && s.outstanding == |s.pieces| + |Publishing(s.pieces)| + (if RootLeft(s) then 1 else 0)
    && (s.finisher == NotYet <==> s.outstanding > 0)
    && (s.finished <==> s.finisher == MustTake || s.finisher == MustWake || s.finisher == Over)
  }

  ghost predicate Has(s: State, p: nat, x: nat) {
    p in s.pieces && s.pieces[p].lo <= x < s.pieces[p].hi
  }

  ghost predicate PieceOk(s: State, p: nat)
    requires p in s.pieces
  {
    var piece := s.pieces[p];
    && piece.lo <= piece.hi <= s.end && s.start <= piece.lo
    && (piece.phase.Counted? ==> piece.lo < piece.phase.middle < piece.hi)
    && (piece.phase == Queued || piece.phase == Splitting || piece.phase.Counted? ==> piece.ran == 0)
    && (piece.phase == Running ==> piece.ran + (piece.hi - piece.lo) <= s.leaf)
    && (piece.phase == Retiring ==> piece.lo == piece.hi)
    && piece.ran <= s.leaf
  }

  /** Nobody has run an index twice, and no index that ran or belongs to one piece belongs to another. */
  ghost predicate Exclusive(s: State) {
    && Distinct(s.runs)
    && (forall x :: x in s.runs ==> s.start <= x < s.end)
    && (forall p, x :: Has(s, p, x) ==> x !in s.runs)
    && (forall p, q, x :: Has(s, p, x) && Has(s, q, x) ==> p == q)
    && (RootLeft(s) ==> s.runs == [] && s.pieces == map[])
  }

  /** Short of a cancel or a dropped piece, every index has run or waits in some piece. */
  ghost predicate Complete(s: State) {
    s.cancelled || s.lost || RootLeft(s) || forall x :: s.start <= x < s.end ==> x in s.runs || exists p :: Has(s, p, x)
  }

  ghost predicate JoinOk(s: State) {
    && (s.join == LookingAgain ==> s.waiter || s.finished)
    && (s.join == Parked && !s.scheduled ==>
          (s.waiter && (!s.finished || s.finisher == MustTake)) || s.finisher == MustWake)
    && (s.join == Joined ==> s.outstanding == 0 || s.finished)
  }

  ghost predicate Inv(s: State) {
    && s.leaf >= 1
    && Counting(s)
    && (forall p :: p in s.pieces ==> PieceOk(s, p))
    && Exclusive(s) && Complete(s) && JoinOk(s)
  }

  // ---------- Every step keeps the invariant ----------

  lemma SetPiece(pieces: map<nat, Piece>, p: nat, piece: Piece)
    ensures |pieces[p := piece]| == |pieces| + (if p in pieces then 0 else 1)
    ensures |Publishing(pieces[p := piece])| == |Publishing(pieces) - {p}| + (if piece.phase.Counted? then 1 else 0)
    ensures |Publishing(pieces) - {p}| == |Publishing(pieces)| - (if p in Publishing(pieces) then 1 else 0)
  {
    assert pieces[p := piece].Keys == pieces.Keys + {p};
    AddElement(pieces.Keys, p);
    DropElement(Publishing(pieces), p);
    var others := Publishing(pieces) - {p};
    if piece.phase.Counted? {
      assert Publishing(pieces[p := piece]) == others + {p};
    } else {
      assert Publishing(pieces[p := piece]) == others;
    }
  }

  lemma DropPiece(pieces: map<nat, Piece>, p: nat)
    requires p in pieces && !pieces[p].phase.Counted?
    ensures |pieces - {p}| == |pieces| - 1 && |Publishing(pieces - {p})| == |Publishing(pieces)|
  {
    assert (pieces - {p}).Keys == pieces.Keys - {p};
    DropElement(pieces.Keys, p);
    assert Publishing(pieces - {p}) == Publishing(pieces);
  }

  /** A piece moves on without giving up an index. */
  lemma PhaseKeeps(s: State, p: nat, piece: Piece, outstanding: nat)
    requires Inv(s) && p in s.pieces && piece.lo == s.pieces[p].lo && piece.hi == s.pieces[p].hi
    requires !s.pieces[p].phase.Counted? && outstanding == s.outstanding + (if piece.phase.Counted? then 1 else 0)
    requires PieceOk(With(s, p, piece), p)
    ensures Inv(With(s, p, piece).(outstanding := outstanding))
  {
    var t := With(s, p, piece).(outstanding := outstanding);
    SetPiece(s.pieces, p, piece);
    assert s.outstanding > 0 by { assert p in s.pieces.Keys; }
    forall q | q in t.pieces ensures PieceOk(t, q) { if q != p { assert PieceOk(s, q); } }
    SameShares(s, t);
  }

  /** Nobody gained or lost an index. */
  lemma SameShares(s: State, t: State)
    requires Exclusive(s) && Complete(s)
    requires t.start == s.start && t.end == s.end && t.runs == s.runs && t.cancelled == s.cancelled && t.lost == s.lost
    requires t.join == s.join && (s.pieces == map[] ==> t.pieces == map[])
    requires forall q, x: nat :: Has(t, q, x) <==> Has(s, q, x)
    ensures Exclusive(t) && Complete(t)
  {
    CompleteFrame(s, t);
  }

  /** Whoever had an index has it still, so nothing gets lost. */
  lemma CompleteFrame(s: State, t: State)
    requires Complete(s) && t.start == s.start && t.end == s.end && (s.cancelled || s.lost ==> t.cancelled || t.lost)
    requires RootLeft(s) ==> RootLeft(t)
    requires forall x :: x in s.runs ==> x in t.runs
    requires forall p, x: nat :: Has(s, p, x) ==> x in t.runs || exists q :: Has(t, q, x)
    ensures Complete(t)
  {
    if !t.cancelled && !t.lost && !RootLeft(t) {
      forall x | t.start <= x < t.end ensures x in t.runs || exists q :: Has(t, q, x) {
        if x !in s.runs {
          var p :| Has(s, p, x);
        }
      }
    }
  }

  lemma AbandonKeeps(s: State, p: nat, cancelled: bool, lost: bool)
    requires Inv(s) && p in s.pieces && !s.pieces[p].phase.Counted? && (cancelled || lost)
    ensures Inv(Abandoned(s, p).(cancelled := cancelled, lost := lost))
  {
    var t := Abandoned(s, p).(cancelled := cancelled, lost := lost);
    assert PieceOk(s, p);
    SetPiece(s.pieces, p, t.pieces[p]);
    forall q | q in t.pieces ensures PieceOk(t, q) { if q != p { assert PieceOk(s, q); } }
    forall q, x: nat | Has(t, q, x) ensures Has(s, q, x) {}
  }

  lemma SubmitKeeps(s: State, p: nat, q: nat)
    requires Inv(s) && Enabled(s, Submit(p, q))
    ensures Inv(DoSubmit(s, p, q))
  {
    var t := DoSubmit(s, p, q);
    assert PieceOk(s, p);
    SubmitCounts(s, p, q);
    SubmitShares(s, p, q);
    forall r | r in t.pieces ensures PieceOk(t, r) { if r != p && r != q { assert PieceOk(s, r); } }
    assert Exclusive(t) by {
      forall r, x: nat | Has(t, r, x) ensures x !in t.runs { assert Has(s, Source(p, q, r), x); }
      forall r, r2, x: nat | Has(t, r, x) && Has(t, r2, x) ensures r == r2 {
        assert Has(s, Source(p, q, r), x) && Has(s, Source(p, q, r2), x);
      }
    }
    CompleteFrame(s, t);
  }

  /** The piece that had, before `p` published `q`, what `r` has now. */
  function Source(p: nat, q: nat, r: nat): nat {
    if r == q then p else r
  }

  lemma SubmitCounts(s: State, p: nat, q: nat)
    requires Counting(s) && Enabled(s, Submit(p, q))
    ensures Counting(DoSubmit(s, p, q))
  {
    var t := DoSubmit(s, p, q);
    var u := With(s, p, t.pieces[p]);
    SetPiece(s.pieces, p, t.pieces[p]);
    SetPiece(u.pieces, q, t.pieces[q]);
    assert t.pieces == u.pieces[q := t.pieces[q]];
  }

  lemma SubmitShares(s: State, p: nat, q: nat)
    requires Enabled(s, Submit(p, q)) && PieceOk(s, p)
    ensures var t := DoSubmit(s, p, q);
            && (forall r, x: nat :: Has(t, r, x) ==> Has(s, Source(p, q, r), x))
            && (forall r, x: nat :: Has(s, r, x) ==> exists r' :: Has(t, r', x))
  {
    var t := DoSubmit(s, p, q);
    forall r, x: nat | Has(s, r, x) ensures exists r' :: Has(t, r', x) {
      assert Has(t, if r == p && x >= s.pieces[p].phase.middle then q else r, x);
    }
  }

  lemma BodyIsExclusive(s: State, p: nat)
    requires Exclusive(s) && Enabled(s, Body(p, false)) && PieceOk(s, p) && !RootLeft(s)
    ensures Exclusive(DoBody(s, p, false))
  {
    var t := DoBody(s, p, false);
    var now := s.pieces[p].lo;
    assert Has(s, p, now);
    assert forall q, x: nat :: Has(t, q, x) ==> Has(s, q, x);
    assert forall q :: !Has(t, q, now) by {
      assert forall q :: Has(s, q, now) ==> q == p;
    }
  }

  lemma BodyKeeps(s: State, p: nat)
    requires Inv(s) && Enabled(s, Body(p, false))
    ensures Inv(DoBody(s, p, false))
  {
    var t := DoBody(s, p, false);
    var now := s.pieces[p].lo;
    assert PieceOk(s, p) && Has(s, p, now);
    SetPiece(s.pieces, p, t.pieces[p]);
    forall q | q in t.pieces ensures PieceOk(t, q) { if q != p { assert PieceOk(s, q); } }
    BodyIsExclusive(s, p);
    forall q, x: nat | Has(s, q, x) ensures x in t.runs || exists r :: Has(t, r, x) {
      if x != now { assert Has(t, q, x); }
    }
    assert p in s.pieces.Keys;
    CompleteFrame(s, t);
  }

  lemma RetireKeeps(s: State, p: nat)
    requires Inv(s) && Enabled(s, Retire(p))
    ensures Inv(Do(s, Retire(p)))
  {
    var t := Do(s, Retire(p));
    assert PieceOk(s, p);
    DropPiece(s.pieces, p);
    assert p in s.pieces.Keys;
    forall q | q in t.pieces ensures PieceOk(t, q) { assert PieceOk(s, q); }
    forall q, x: nat ensures Has(t, q, x) <==> Has(s, q, x) {}
    CompleteFrame(s, t);
  }

  lemma StartKeeps(s: State, p: nat)
    requires Inv(s) && Enabled(s, Start(p))
    ensures Inv(Do(s, Start(p)))
  {
    var t := Do(s, Start(p));
    assert s.pieces == map[] && Publishing(s.pieces) == {};
    SetPiece(s.pieces, p, t.pieces[p]);
    assert t.pieces == map[p := Piece(s.start, s.end, Queued, 0)];
    forall x | t.start <= x < t.end ensures x in t.runs || exists q :: Has(t, q, x) {
      assert Has(t, p, x);
    }
    assert PieceOk(t, p);
  }

  lemma StartNothingKeeps(s: State)
    requires Inv(s) && Enabled(s, StartNothing)
    ensures Inv(Do(s, StartNothing))
  {
    assert s.pieces == map[] && Publishing(s.pieces) == {};
  }

  /** Steps of the finisher, the joiner and the switch touch no piece. */
  lemma QuietKeeps(s: State, l: Label)
    requires Inv(s) && Enabled(s, l)
    requires l.StoreFinished? || l.TakeWaiter? || l.WakeWaiter? || l.Cancel? || l.PollAgain? || l.Look? || l.Park?
             || l.LookAgain? || l.DropLoop?
    ensures Inv(Do(s, l))
  {
    QuietCounts(s, l);
    QuietPieces(s, Do(s, l));
  }

  lemma QuietCounts(s: State, l: Label)
    requires Counting(s) && JoinOk(s) && Enabled(s, l) && (RootLeft(s) ==> s.runs == [] && s.pieces == map[])
    requires l.StoreFinished? || l.TakeWaiter? || l.WakeWaiter? || l.Cancel? || l.PollAgain? || l.Look? || l.Park?
             || l.LookAgain? || l.DropLoop?
    ensures var t := Do(s, l);
            && Counting(t) && JoinOk(t) && t.pieces == s.pieces && t.runs == s.runs && RootLeft(t) == RootLeft(s)
            && t.start == s.start && t.end == s.end && t.leaf == s.leaf && t.lost == s.lost
                && (s.cancelled ==> t.cancelled)
  {
  }

  lemma QuietPieces(s: State, t: State)
    requires (forall p :: p in s.pieces ==> PieceOk(s, p)) && Exclusive(s) && Complete(s)
    requires t.pieces == s.pieces && t.runs == s.runs && RootLeft(t) == RootLeft(s)
    requires t.start == s.start && t.end == s.end && t.leaf == s.leaf && t.lost == s.lost
             && (s.cancelled ==> t.cancelled)
    ensures (forall p :: p in t.pieces ==> PieceOk(t, p)) && Exclusive(t) && Complete(t)
  {
    forall q | q in t.pieces ensures PieceOk(t, q) { assert PieceOk(s, q); }
    forall q, x: nat ensures Has(t, q, x) <==> Has(s, q, x) {}
    CompleteFrame(s, t);
  }

  lemma PickupKeeps(s: State, p: nat, poolAlive: bool)
    requires Inv(s) && Enabled(s, Pickup(p, poolAlive))
    ensures Inv(DoPickup(s, p, poolAlive))
  {
    assert PieceOk(s, p);
    if !poolAlive { AbandonKeeps(s, p, true, s.lost); }
    else if s.cancelled { AbandonKeeps(s, p, true, s.lost); }
    else { PhaseKeeps(s, p, s.pieces[p].(phase := Splitting), s.outstanding); }
  }

  lemma WorkStepKeeps(s: State, l: Label)
    requires Inv(s) && Enabled(s, l) && (l.Count? || l.EndSplit? || l.EndBody?)
    ensures Inv(Do(s, l))
  {
    assert PieceOk(s, l.p);
    var t := Do(s, l);
    PhaseKeeps(s, l.p, t.pieces[l.p], t.outstanding);
    assert t == With(s, l.p, t.pieces[l.p]).(outstanding := t.outstanding);
  }

  lemma BodyStepKeeps(s: State, p: nat, panics: bool)
    requires Inv(s) && Enabled(s, Body(p, panics))
    ensures Inv(DoBody(s, p, panics))
  {
    BodyKeeps(s, p);
    if panics { AbandonKeeps(DoBody(s, p, false), p, true, s.lost); }
  }

  lemma StepKeeps(s: State, l: Label)
    requires Inv(s) && Enabled(s, l)
    ensures Inv(Do(s, l))
  {
    match l
    case Start(p) => StartKeeps(s, p);
    case StartNothing => StartNothingKeeps(s);
    case Pickup(p, poolAlive) => PickupKeeps(s, p, poolAlive);
    case Count(_) => WorkStepKeeps(s, l);
    case EndSplit(_) => WorkStepKeeps(s, l);
    case EndBody(_) => WorkStepKeeps(s, l);
    case Submit(p, q) => SubmitKeeps(s, p, q);
    case Body(p, panics) => BodyStepKeeps(s, p, panics);
    case Lose(p) => AbandonKeeps(s, p, s.cancelled, true);
    case Retire(p) => RetireKeeps(s, p);
    case _ => QuietKeeps(s, l);
  }

  lemma InvAt(run: seq<State>, i: nat)
    requires IsRun(Init, Next, run) && i < |run|
    ensures Inv(run[i])
  {
    forall s | Init(s) ensures Inv(s) { assert Publishing(s.pieces) == {}; }
    forall s, t | Inv(s) && Next(s, t) ensures Inv(t) {
      var l :| Enabled(s, l) && t == Do(s, l);
      StepKeeps(s, l);
    }
    Invariance(Init, Next, Inv, run);
  }

  // ---------- What every run guarantees ----------

  /** No index is ever run twice, and none outside the range. */
  lemma NoIndexRunsTwice(run: seq<State>, i: nat)
    requires IsRun(Init, Next, run) && i < |run|
    ensures Distinct(run[i].runs) && forall x :: x in run[i].runs ==> run[i].start <= x < run[i].end
  {
    InvAt(run, i);
  }

  /**
   `finished` is set only when no piece is left. With no cancel, no panic, the pool alive and no
   piece dropped by it, every index has then run; a panic and a dead pool cancel the loop.
   */
  lemma FinishedMeansDone(run: seq<State>, i: nat)
    requires IsRun(Init, Next, run) && i < |run| && run[i].finished
    ensures run[i].outstanding == 0 && run[i].pieces == map[]
    ensures !run[i].cancelled && !run[i].lost ==> forall x :: run[i].start <= x < run[i].end ==> x in run[i].runs
  {
    InvAt(run, i);
    var s := run[i];
    assert s.pieces == map[] && !RootLeft(s);
    assert forall p, x :: !Has(s, p, x);
  }

  /** Until a cancel or a dropped piece, no index is ever lost on the way: it has run, or exactly one piece has it. */
  lemma LossHasACause(run: seq<State>, i: nat, x: nat)
    requires IsRun(Init, Next, run) && i < |run| && !RootLeft(run[i]) && run[i].start <= x < run[i].end
    requires !run[i].cancelled && !run[i].lost
    ensures x in run[i].runs <==> !exists p :: Has(run[i], p, x)
    ensures forall p, q :: Has(run[i], p, x) && Has(run[i], q, x) ==> p == q
  {
    InvAt(run, i);
  }

  lemma StepInRun(run: seq<State>, j: nat) returns (l: Label)
    requires IsRun(Init, Next, run) && 0 < j < |run|
    ensures Inv(run[j - 1]) && Enabled(run[j - 1], l) && run[j] == Do(run[j - 1], l)
  {
    InvAt(run, j - 1);
    assert StepAt(Next, run, j);
    l :| Enabled(run[j - 1], l) && run[j] == Do(run[j - 1], l);
  }

  /**
   The counter is the number of pieces that exist, in the bag, running or being dropped, plus those
   counted and about to be published, plus the root until it is handed over.
   */
  lemma OutstandingCountsPieces(run: seq<State>, i: nat)
    requires IsRun(Init, Next, run) && i < |run|
    ensures run[i].outstanding == |run[i].pieces| + |Publishing(run[i].pieces)| + (if RootLeft(run[i]) then 1 else 0)
    ensures run[i].outstanding == 0 <==> run[i].finisher != NotYet
  {
    InvAt(run, i);
  }

  /** Where the last retirement stands, as a number that only goes up. */
  function Progress(f: Finisher): nat {
    match f
    case NotYet => 0
    case MustStore => 1
    case MustTake => 2
    case MustWake => 3
    case Over => 4
  }

  lemma FinisherOnlyAdvances(s: State, l: Label)
    requires Inv(s) && Enabled(s, l)
    ensures Progress(s.finisher) <= Progress(Do(s, l).finisher)
    ensures s.outstanding == 0 ==> Do(s, l).outstanding == 0
  {
    assert s.outstanding == 0 ==> s.pieces == map[];
  }

  lemma {:induction false} FinisherNeverGoesBack(run: seq<State>, i: nat, j: nat)
    requires IsRun(Init, Next, run) && i <= j < |run|
    ensures Progress(run[i].finisher) <= Progress(run[j].finisher)
    ensures run[i].outstanding == 0 ==> run[j].outstanding == 0
    decreases j - i
  {
    if i < j {
      FinisherNeverGoesBack(run, i, j - 1);
      var l := StepInRun(run, j);
      FinisherOnlyAdvances(run[j - 1], l);
    }
  }

  /** The counter reaches zero once and stays there; `finished` is stored once and stays set. */
  lemma FinishesOnce(run: seq<State>, i: nat, j: nat)
    requires IsRun(Init, Next, run) && i <= j < |run|
    ensures run[i].outstanding == 0 ==> run[j].outstanding == 0
    ensures run[i].finished ==> run[j].finished && !Enabled(run[j], StoreFinished)
  {
    FinisherNeverGoesBack(run, i, j);
    InvAt(run, i);
    InvAt(run, j);
  }

  /** A piece runs at most a leaf of indices in its whole life; one still in the bag after a cancel runs none. */
  lemma PieceRunsAtMostALeaf(run: seq<State>, i: nat, p: nat)
    requires IsRun(Init, Next, run) && i < |run| && p in run[i].pieces
    ensures run[i].pieces[p].ran <= run[i].leaf
    ensures run[i].pieces[p].phase == Running ==>
              run[i].pieces[p].ran + (run[i].pieces[p].hi - run[i].pieces[p].lo) <= run[i].leaf
    ensures run[i].cancelled && run[i].pieces[p].phase == Queued ==>
              forall alive ::
                var t := Do(run[i], Pickup(p, alive));
                t.pieces[p].phase == Retiring && t.runs == run[i].runs
  {
    InvAt(run, i);
    assert PieceOk(run[i], p);
  }

  /** How many indices a piece may still run once the loop is cancelled: none unless it is past its check. */
  function Budget(piece: Piece, leaf: nat): nat {
    match piece.phase
    case Queued => 0
    case Splitting => leaf
    case Counted(_) => leaf
    case Running => if piece.lo < piece.hi then piece.hi - piece.lo else 0
    case Retiring => 0
  }

  ghost function TotalBudget(pieces: map<nat, Piece>, leaf: nat): nat
    decreases |pieces|
  {
    if pieces == map[] then 0
    else
      var p :| p in pieces;
      Budget(pieces[p], leaf) + TotalBudget(pieces - {p}, leaf)
  }

  lemma {:induction false} BudgetSplit(pieces: map<nat, Piece>, leaf: nat, p: nat)
    requires p in pieces
    ensures TotalBudget(pieces, leaf) == Budget(pieces[p], leaf) + TotalBudget(pieces - {p}, leaf)
    decreases |pieces|
  {
    var q :| q in pieces && TotalBudget(pieces, leaf) == Budget(pieces[q], leaf) + TotalBudget(pieces - {q}, leaf);
    if q != p {
      BudgetSplit(pieces - {q}, leaf, p);
      BudgetSplit(pieces - {p}, leaf, q);
      assert pieces - {q} - {p} == pieces - {p} - {q};
    }
  }

  lemma BudgetAfterSet(pieces: map<nat, Piece>, leaf: nat, p: nat, piece: Piece)
    ensures TotalBudget(pieces[p := piece], leaf) + (if p in pieces then Budget(pieces[p], leaf) else 0)
            == TotalBudget(pieces, leaf) + Budget(piece, leaf)
  {
    BudgetSplit(pieces[p := piece], leaf, p);
    assert pieces[p := piece] - {p} == pieces - {p};
    if p in pieces { BudgetSplit(pieces, leaf, p); } else { assert pieces - {p} == pieces; }
  }

  /** The pieces that were past their cancel check. */
  function PastCheck(pieces: map<nat, Piece>): set<nat> {
    set p | p in pieces && pieces[p].phase != Queued && pieces[p].phase != Retiring
  }

  lemma {:induction false} BudgetIsBounded(pieces: map<nat, Piece>, leaf: nat)
    requires forall p :: p in pieces ==> Budget(pieces[p], leaf) <= leaf
    ensures TotalBudget(pieces, leaf) <= leaf * |PastCheck(pieces)|
    decreases |pieces|
  {
    if pieces != map[] {
      var p :| p in pieces;
      var rest := pieces - {p};
      BudgetSplit(pieces, leaf, p);
      BudgetIsBounded(rest, leaf);
      OnePastCheck(pieces, p);
      OneMore(leaf, |PastCheck(rest)|);
    }
  }

  lemma OnePastCheck(pieces: map<nat, Piece>, p: nat)
    requires p in pieces
    ensures |PastCheck(pieces)| == |PastCheck(pieces - {p})| + if p in PastCheck(pieces) then 1 else 0
  {
    assert PastCheck(pieces - {p}) == PastCheck(pieces) - {p};
    DropElement(PastCheck(pieces), p);
  }

  lemma OneMore(leaf: nat, n: nat)
    ensures leaf * (n + 1) == leaf * n + leaf
  {
  }

  /** Once cancelled, every index that runs is paid for by the piece that runs it. */
  lemma CancelledStepSpends(s: State, l: Label)
    requires Inv(s) && Enabled(s, l) && s.cancelled
    ensures Do(s, l).cancelled && Do(s, l).leaf == s.leaf
    ensures |Do(s, l).runs| + TotalBudget(Do(s, l).pieces, s.leaf) <= |s.runs| + TotalBudget(s.pieces, s.leaf)
  {
    match l
    case Submit(p, q) => SubmitSpends(s, p, q);
    case Retire(p) => BudgetSplit(s.pieces, s.leaf, p);
    case Body(p, panics) => BodySpends(s, p, panics);
    case Pickup(p, _) => OnePieceSpends(s, Do(s, l), p);
    case Count(p) => OnePieceSpends(s, Do(s, l), p);
    case EndSplit(p) => OnePieceSpends(s, Do(s, l), p);
    case EndBody(p) => OnePieceSpends(s, Do(s, l), p);
    case Lose(p) => OnePieceSpends(s, Do(s, l), p);
    case _ =>
  }

  lemma SubmitSpends(s: State, p: nat, q: nat)
    requires Enabled(s, Submit(p, q))
    ensures TotalBudget(DoSubmit(s, p, q).pieces, s.leaf) <= TotalBudget(s.pieces, s.leaf)
  {
    var t := DoSubmit(s, p, q);
    BudgetAfterSet(s.pieces, s.leaf, p, t.pieces[p]);
    BudgetAfterSet(s.pieces[p := t.pieces[p]], s.leaf, q, t.pieces[q]);
    assert t.pieces == s.pieces[p := t.pieces[p]][q := t.pieces[q]];
  }

  lemma OnePieceSpends(s: State, t: State, p: nat)
    requires p in s.pieces && p in t.pieces && t.pieces == s.pieces[p := t.pieces[p]] && t.runs == s.runs
    requires Budget(t.pieces[p], s.leaf) <= Budget(s.pieces[p], s.leaf)
    ensures TotalBudget(t.pieces, s.leaf) <= TotalBudget(s.pieces, s.leaf)
  {
    BudgetAfterSet(s.pieces, s.leaf, p, t.pieces[p]);
  }

  lemma BodySpends(s: State, p: nat, panics: bool)
    requires Enabled(s, Body(p, panics))
    ensures var t := Do(s, Body(p, panics));
            |t.runs| + TotalBudget(t.pieces, s.leaf) <= |s.runs| + TotalBudget(s.pieces, s.leaf)
  {
    var t := Do(s, Body(p, panics));
    assert t.pieces == s.pieces[p := t.pieces[p]];
    BudgetAfterSet(s.pieces, s.leaf, p, t.pieces[p]);
  }

  lemma {:induction false} CancelledRunSpends(run: seq<State>, i: nat, j: nat)
    requires IsRun(Init, Next, run) && i <= j < |run| && run[i].cancelled
    ensures run[j].cancelled && run[j].leaf == run[i].leaf
    ensures |run[j].runs| + TotalBudget(run[j].pieces, run[i].leaf)
            <= |run[i].runs| + TotalBudget(run[i].pieces, run[i].leaf)
    decreases j - i
  {
    if i < j {
      CancelledRunSpends(run, i, j - 1);
      var l := StepInRun(run, j);
      CancelledStepSpends(run[j - 1], l);
    }
  }

  /**
   What a cancel bounds: from then on and for ever, at most a leaf of indices runs for each piece
   that was past its check, however the halves still in the bag or yet to be split off are treated.
   */
  lemma CancelBoundsTheRest(run: seq<State>, i: nat, j: nat)
    requires IsRun(Init, Next, run) && i <= j < |run| && run[i].cancelled
    ensures |run[j].runs| <= |run[i].runs| + run[i].leaf * |PastCheck(run[i].pieces)|
  {
    CancelledRunSpends(run, i, j);
    InvAt(run, i);
    var s := run[i];
    forall p | p in s.pieces ensures Budget(s.pieces[p], s.leaf) <= s.leaf {
      assert PieceOk(s, p);
    }
    BudgetIsBounded(s.pieces, s.leaf);
  }

  /** A joiner parked on a finished loop is about to be woken. */
  lemma JoinerIsWoken(run: seq<State>, i: nat)
    requires IsRun(Init, Next, run) && i < |run| && run[i].join == Parked && !run[i].scheduled
    ensures if run[i].finished then run[i].finisher == MustWake || (run[i].finisher == MustTake && run[i].waiter)
            else run[i].waiter
  {
    InvAt(run, i);
  }

  /** Splitting ends: each published half leaves its piece shorter and both halves nonempty. */
  lemma SplitShrinks(s: State, p: nat, q: nat)
    requires Inv(s) && Enabled(s, Submit(p, q))
    ensures var t := Do(s, Submit(p, q));
            && t.pieces[p].lo < t.pieces[p].hi == t.pieces[q].lo < t.pieces[q].hi == s.pieces[p].hi
            && t.pieces[p].lo == s.pieces[p].lo
  {
    assert PieceOk(s, p);
  }

  // ---------- One piece's calls, run alone ----------

  /** Counting and publishing a half under each of `ids` in turn, then the end of the splitting. */
  ghost function SplitSteps(s: State, p: nat, ids: seq<nat>): State
    decreases |ids|
  {
    if ids != [] && Enabled(s, Count(p)) && Enabled(Do(s, Count(p)), Submit(p, ids[0])) then
      SplitSteps(Do(Do(s, Count(p)), Submit(p, ids[0])), p, ids[1..])
    else if Enabled(s, EndSplit(p)) then Do(s, EndSplit(p))
    else s
  }

  /** The bag with the halves given away in it, each under its id. */
  function Published(pieces: map<nat, Piece>, given: seq<(nat, nat)>, ids: seq<nat>): map<nat, Piece>
    requires |given| == |ids|
    decreases |given|
  {
    if given == [] then pieces
    else Published(pieces[ids[0] := Piece(given[0].0, given[0].1, Queued, 0)], given[1..], ids[1..])
  }

  lemma {:induction false} PublishedApart(pieces: map<nat, Piece>, given: seq<(nat, nat)>, ids: seq<nat>, p: nat,
      piece: Piece)
    requires |given| == |ids| && p in pieces && p !in ids
    ensures p in Published(pieces, given, ids) && Published(pieces, given, ids)[p] == pieces[p]
    ensures Published(pieces, given, ids)[p := piece] == Published(pieces[p := piece], given, ids)
    decreases |given|
  {
    if given != [] {
      var half := Piece(given[0].0, given[0].1, Queued, 0);
      PublishedApart(pieces[ids[0] := half], given[1..], ids[1..], p, piece);
      assert pieces[ids[0] := half][p := piece] == pieces[p := piece][ids[0] := half];
    }
  }

  /** The state once one half is in the bag under `q`. */
  function HalfGiven(s: State, p: nat, q: nat): State
    requires p in s.pieces && s.pieces[p].lo <= s.pieces[p].hi
  {
    var piece := s.pieces[p];
    var middle := piece.lo + (piece.hi - piece.lo) / 2;
    s.(outstanding := s.outstanding + 1,
       pieces := s.pieces[p := piece.(hi := middle)][q := Piece(middle, piece.hi, Queued, 0)])
  }

  lemma CountIsItsStep(s: State, p: nat)
    requires p in s.pieces && s.pieces[p].phase == Splitting && s.pieces[p].lo <= s.pieces[p].hi
    requires s.pieces[p].hi - s.pieces[p].lo > s.leaf
    ensures Enabled(s, Count(p))
    ensures var piece := s.pieces[p];
            Do(s, Count(p)) == With(s, p, piece.(phase := Counted(piece.lo + (piece.hi - piece.lo) / 2)))
                                 .(outstanding := s.outstanding + 1)
  {
  }

  lemma SubmitIsItsStep(s: State, t: State, p: nat, q: nat)
    requires p in s.pieces && s.pieces[p].phase == Splitting && s.pieces[p].lo <= s.pieces[p].hi && q !in s.pieces
    requires var piece := s.pieces[p];
             t == With(s, p, piece.(phase := Counted(piece.lo + (piece.hi - piece.lo) / 2)))
                    .(outstanding := s.outstanding + 1)
    ensures Enabled(t, Submit(p, q)) && Do(t, Submit(p, q)) == HalfGiven(s, p, q)
  {
    var piece := s.pieces[p];
    var left := piece.(hi := piece.lo + (piece.hi - piece.lo) / 2);
    assert t.pieces[p].(hi := left.hi, phase := Splitting) == left;
    assert t.pieces[p := left] == s.pieces[p := left];
  }

  lemma HalfIsItsSteps(s: State, p: nat, ids: seq<nat>)
    requires p in s.pieces && s.pieces[p].phase == Splitting && s.pieces[p].lo <= s.pieces[p].hi
    requires s.pieces[p].hi - s.pieces[p].lo > s.leaf && ids != [] && ids[0] !in s.pieces
    ensures SplitSteps(s, p, ids) == SplitSteps(HalfGiven(s, p, ids[0]), p, ids[1..])
  {
    CountIsItsStep(s, p);
    SubmitIsItsStep(s, Do(s, Count(p)), p, ids[0]);
  }

  /** The state once the splitting is over. */
  function SplitAlone(s: State, p: nat, ids: seq<nat>): State
    requires p in s.pieces && s.leaf >= 1 && |ids| == |Given(s.pieces[p].lo, s.pieces[p].hi, s.leaf)|
  {
    var piece := s.pieces[p];
    var given, kept := Given(piece.lo, piece.hi, s.leaf), Kept(piece.lo, piece.hi, s.leaf);
    s.(outstanding := s.outstanding + |given|,
       pieces := Published(s.pieces[p := piece.(hi := kept, phase := Running)], given, ids))
  }

  lemma SplitGoesOn(s: State, p: nat, ids: seq<nat>)
    requires p in s.pieces && s.leaf >= 1 && |ids| == |Given(s.pieces[p].lo, s.pieces[p].hi, s.leaf)|
    requires s.pieces[p].lo <= s.pieces[p].hi && s.pieces[p].hi - s.pieces[p].lo > s.leaf && ids[0] != p
    ensures var t := HalfGiven(s, p, ids[0]);
            && p in t.pieces && t.pieces[p].lo <= t.pieces[p].hi < s.pieces[p].hi
                && t.pieces[p].phase == s.pieces[p].phase
            && |ids[1..]| == |Given(t.pieces[p].lo, t.pieces[p].hi, t.leaf)|
            && SplitAlone(t, p, ids[1..]) == SplitAlone(s, p, ids)
  {
    var piece := s.pieces[p];
    var middle := piece.lo + (piece.hi - piece.lo) / 2;
    var half := Piece(middle, piece.hi, Queued, 0);
    var t := HalfGiven(s, p, ids[0]);
    var given := Given(piece.lo, piece.hi, s.leaf);
    assert given[0] == (middle, piece.hi) && given[1..] == Given(piece.lo, middle, s.leaf);
    var leafPiece := piece.(hi := Kept(piece.lo, piece.hi, s.leaf), phase := Running);
    assert t.pieces[p := leafPiece] == s.pieces[p := leafPiece][ids[0] := half];
  }

  lemma EndSplitIsIts(s: State, p: nat, ids: seq<nat>)
    requires p in s.pieces && s.pieces[p].phase == Splitting && s.pieces[p].hi - s.pieces[p].lo <= s.leaf
    ensures SplitSteps(s, p, ids) == s.(pieces := s.pieces[p := s.pieces[p].(phase := Running)])
  {
  }

  lemma {:induction false} SplitIsItsSteps(s: State, p: nat, ids: seq<nat>)
    requires p in s.pieces && s.pieces[p].phase == Splitting && s.leaf >= 1 && s.pieces[p].lo <= s.pieces[p].hi
    requires |ids| == |Given(s.pieces[p].lo, s.pieces[p].hi, s.leaf)| && Distinct(ids)
    requires forall q :: q in ids ==> q !in s.pieces
    ensures SplitSteps(s, p, ids) == SplitAlone(s, p, ids)
    decreases s.pieces[p].hi
  {
    if s.pieces[p].hi - s.pieces[p].lo > s.leaf {
      assert ids[0] in ids;
      HalfIsItsSteps(s, p, ids);
      SplitGoesOn(s, p, ids);
      assert forall q :: q in ids[1..] ==> q in ids;
      SplitIsItsSteps(HalfGiven(s, p, ids[0]), p, ids[1..]);
    } else {
      EndSplitIsIts(s, p, ids);
    }
  }

  /** Every remaining index of the leaf, then the end of the piece. */
  ghost function BodySteps(s: State, p: nat): State
    decreases if p in s.pieces && s.pieces[p].lo < s.pieces[p].hi then s.pieces[p].hi - s.pieces[p].lo else 0
  {
    if Enabled(s, Body(p, false)) then BodySteps(Do(s, Body(p, false)), p)
    else if Enabled(s, EndBody(p)) then Do(s, EndBody(p))
    else s
  }

  /** The state once the first index of the leaf has run, and once all of them have. */
  function IndexRun(s: State, p: nat): State
    requires p in s.pieces
  {
    var piece := s.pieces[p];
    s.(runs := s.runs + [piece.lo], pieces := s.pieces[p := piece.(lo := piece.lo + 1, ran := piece.ran + 1)])
  }

  function LeafRun(s: State, p: nat): State
    requires p in s.pieces && s.pieces[p].lo <= s.pieces[p].hi
  {
    var piece := s.pieces[p];
    s.(runs := s.runs + Indices(piece.lo, piece.hi),
       pieces := s.pieces[p := Piece(piece.hi, piece.hi, Retiring, piece.ran + (piece.hi - piece.lo))])
  }

  lemma IndexIsItsStep(s: State, p: nat)
    requires p in s.pieces && s.pieces[p].phase == Running && s.pieces[p].lo <= s.pieces[p].hi
    ensures s.pieces[p].lo < s.pieces[p].hi ==> Enabled(s, Body(p, false)) && Do(s, Body(p, false)) == IndexRun(s, p)
    ensures s.pieces[p].lo == s.pieces[p].hi ==>
              !Enabled(s, Body(p, false)) && Enabled(s, EndBody(p)) && Do(s, EndBody(p)) == LeafRun(s, p)
  {
    if s.pieces[p].lo == s.pieces[p].hi { assert s.runs + [] == s.runs; }
  }

  lemma BodyIsItsStep(s: State, p: nat)
    requires p in s.pieces && s.pieces[p].phase == Running && s.pieces[p].lo <= s.pieces[p].hi
    ensures BodySteps(s, p) == if s.pieces[p].lo < s.pieces[p].hi then BodySteps(IndexRun(s, p), p) else LeafRun(s, p)
  {
    IndexIsItsStep(s, p);
  }

  lemma LeafGoesOn(s: State, p: nat)
    requires p in s.pieces && s.pieces[p].lo < s.pieces[p].hi
    ensures LeafRun(IndexRun(s, p), p) == LeafRun(s, p)
  {
    var piece := s.pieces[p];
    Regroup(s.runs, [piece.lo], Indices(piece.lo + 1, piece.hi));
  }

  lemma {:induction false} BodiesAreItsSteps(s: State, p: nat)
    requires p in s.pieces && s.pieces[p].phase == Running && s.pieces[p].lo <= s.pieces[p].hi
    ensures BodySteps(s, p) == LeafRun(s, p)
    decreases s.pieces[p].hi - s.pieces[p].lo
  {
    BodyIsItsStep(s, p);
    if s.pieces[p].lo < s.pieces[p].hi {
      LeafGoesOn(s, p);
      BodiesAreItsSteps(IndexRun(s, p), p);
    }
  }

  /** What one piece's `work` does: its halves in the bag and counted, its leaf run, itself to retire. */
  function WorkAlone(s: State, p: nat, ids: seq<nat>): State
    requires p in s.pieces && s.leaf >= 1 && s.pieces[p].lo <= s.pieces[p].hi
    requires |ids| == |Given(s.pieces[p].lo, s.pieces[p].hi, s.leaf)|
  {
    var lo, hi := s.pieces[p].lo, s.pieces[p].hi;
    var given, kept := Given(lo, hi, s.leaf), Kept(lo, hi, s.leaf);
    s.(outstanding := s.outstanding + |given|, runs := s.runs + Indices(lo, kept),
       pieces := Published(s.pieces[p := Piece(kept, kept, Retiring, s.pieces[p].ran + (kept - lo))], given, ids))
  }

  lemma WorkIsSplitAndLeaf(s: State, p: nat, ids: seq<nat>)
    requires p in s.pieces && s.leaf >= 1 && s.pieces[p].lo <= s.pieces[p].hi && p !in ids
    requires |ids| == |Given(s.pieces[p].lo, s.pieces[p].hi, s.leaf)|
    ensures var u := SplitAlone(s, p, ids);
            && p in u.pieces && u.pieces[p].phase == Running && u.pieces[p].lo <= u.pieces[p].hi
            && LeafRun(u, p) == WorkAlone(s, p, ids)
  {
    var piece := s.pieces[p];
    var given, kept := Given(piece.lo, piece.hi, s.leaf), Kept(piece.lo, piece.hi, s.leaf);
    var running := s.pieces[p := piece.(hi := kept, phase := Running)];
    var retiring := Piece(kept, kept, Retiring, piece.ran + (kept - piece.lo));
    PublishedApart(running, given, ids, p, retiring);
    assert running[p := retiring] == s.pieces[p := retiring];
  }

  /** Run back to back, the protocol's steps for one piece are one whole call of `work`. */
  lemma WorkIsItsSteps(s: State, p: nat, ids: seq<nat>)
    requires Enabled(s, Pickup(p, true)) && !s.cancelled && s.leaf >= 1 && s.pieces[p].lo <= s.pieces[p].hi
    requires |ids| == |Given(s.pieces[p].lo, s.pieces[p].hi, s.leaf)| && Distinct(ids)
    requires forall q :: q in ids ==> q !in s.pieces
    ensures BodySteps(SplitSteps(Do(s, Pickup(p, true)), p, ids), p) == WorkAlone(s, p, ids)
  {
    PickupStartsSplitting(s, p, ids);
    var t := With(s, p, s.pieces[p].(phase := Splitting));
    SplitIsItsSteps(t, p, ids);
    WorkIsSplitAndLeaf(t, p, ids);
    BodiesAreItsSteps(SplitAlone(t, p, ids), p);
  }

  lemma PickupStartsSplitting(s: State, p: nat, ids: seq<nat>)
    requires Enabled(s, Pickup(p, true)) && !s.cancelled && s.leaf >= 1 && s.pieces[p].lo <= s.pieces[p].hi
    requires |ids| == |Given(s.pieces[p].lo, s.pieces[p].hi, s.leaf)|
    ensures Do(s, Pickup(p, true)) == With(s, p, s.pieces[p].(phase := Splitting))
    ensures WorkAlone(With(s, p, s.pieces[p].(phase := Splitting)), p, ids) == WorkAlone(s, p, ids)
  {
    var kept := Kept(s.pieces[p].lo, s.pieces[p].hi, s.leaf);
    var retiring := Piece(kept, kept, Retiring, s.pieces[p].ran + (kept - s.pieces[p].lo));
    assert s.pieces[p := s.pieces[p].(phase := Splitting)][p := retiring] == s.pieces[p := retiring];
  }

  lemma RetiringPiece(s: State, p: nat)
    requires Inv(s) && Enabled(s, Retire(p))
    ensures s.outstanding > 0 && s.finisher == NotYet && !s.finished
  {
    assert p in s.pieces.Keys;
  }

  /** And those of one retirement are one whole call of `retire`. */
  lemma RetireIsItsSteps(s: State, p: nat)
    requires Inv(s) && Enabled(s, Retire(p))
    ensures s.outstanding > 0
    ensures var t1 := Do(s, Retire(p));
            var t2 := if t1.finisher == MustStore then Do(Do(t1, StoreFinished), TakeWaiter) else t1;
            (t2.outstanding, t2.finished, t2.waiter, t2.finisher == MustWake)
            == RetireAlone(s.outstanding, s.finished, s.waiter)
  {
    RetiringPiece(s, p);
    RetirementSteps(s, p);
  }

  lemma RetirementSteps(s: State, p: nat)
    requires Enabled(s, Retire(p)) && s.outstanding > 0 && s.finisher == NotYet && !s.finished
    ensures var t1 := Do(s, Retire(p));
            var t2 := if t1.finisher == MustStore then Do(Do(t1, StoreFinished), TakeWaiter) else t1;
            (t2.outstanding, t2.finished, t2.waiter, t2.finisher == MustWake)
            == RetireAlone(s.outstanding, s.finished, s.waiter)
  {
  }
}
