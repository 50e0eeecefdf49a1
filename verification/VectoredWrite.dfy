/**
 `WriteAllVectored` (src/net.rs): a header and a payload written together to a socket that may
 stop anywhere, resumed from a cursor poll after poll.
 */
module VectoredWrites {
  import opened Common

  /** What the socket does next: takes up to `limit` bytes, is full, or fails. */
  datatype Answer = Accept(limit: nat) | WouldBlock | Fail(error: int)

  datatype Outcome = Done | Pending | BrokenPipe | Failed(error: int)

  /** How far the socket's answers carry a write of `total` bytes from `written`, and how the poll ends. */
  function After(written: nat, total: nat, answers: seq<Answer>): (nat, Outcome)
    requires written <= total
    decreases |answers|
  {
    if written == total then (written, Done)
    else if answers == [] then (written, Pending)
    else
      match answers[0]
      case WouldBlock => (written, Pending)
      case Fail(error) => (written, Failed(error))
      case Accept(limit) =>
        if limit == 0 then (written, BrokenPipe)
        else After(written + Min(limit, total - written), total, answers[1..])
  }

  /** Being suspended between two answers changes nothing: the next poll goes on where this one stopped. */
  lemma {:induction false} Resumes(written: nat, total: nat, before: seq<Answer>, after: seq<Answer>)
    requires written <= total && WouldBlock !in before
    ensures var (reached, outcome) := After(written, total, before);
            && written <= reached <= total
            && After(written, total, before + after)
               == if outcome == Pending then After(reached, total, after) else (reached, outcome)
    decreases |before|
  {
    if before == [] {
      assert before + after == after;
    } else if written < total {
      assert (before + after)[0] == before[0] && (before + after)[1..] == before[1..] + after;
      if before[0].Accept? && before[0].limit != 0 {
        Resumes(written + Min(before[0].limit, total - written), total, before[1..], after);
      }
    }
  }

  class WriteAllVectored {
    const header: seq<byte>
    const payload: seq<byte>
    var written: nat
    /** Every byte the socket has taken, in order. */
    ghost var sent: seq<byte>

    /** What has been sent is a prefix of header and payload joined, and the cursor is its length. */
    ghost predicate Valid()
      reads this
    {
      written <= |header| + |payload| && sent == (header + payload)[..written]
    }

    constructor (header: seq<byte>, payload: seq<byte>)
      ensures Valid() && this.header == header && this.payload == payload && written == 0
    {
      this.header, this.payload := header, payload;
      written, sent := 0, [];
    }

    method Poll(answers: seq<Answer>) returns (outcome: Outcome)
      requires Valid()
      modifies this
      ensures Valid() && (written, outcome) == After(old(written), |header| + |payload|, answers)
      ensures outcome == Done ==> sent == header + payload
      ensures var total := |header| + |payload|;
              if old(written) == total then outcome == Done && written == total
              else if answers == [] || answers[0].WouldBlock? then outcome == Pending && written == old(written)
              else if answers[0].Fail? then outcome == Failed(answers[0].error) && written == old(written)
              else if answers[0].limit == 0 then outcome == BrokenPipe && written == old(written)
              else
                |answers| == 1 ==>
                  && (if old(written) + answers[0].limit < total then written == old(written) + answers[0].limit
                      else written == total)
                  && outcome == if written == total then Done else Pending
    {
      var total := |header| + |payload|;
      var used := 0;
      while written < total
        invariant Valid() && used <= |answers|
        invariant After(old(written), total, answers) == After(written, total, answers[used..])
        decreases |answers| - used
      {
        var first, second := header[|header|..], payload;
        if written < |header| {
          first := header[written..];
        } else {
          second := payload[written - |header|..];
        }
        assert first + second == (header + payload)[written..];
        if used == |answers| { return Pending; }
        assert answers[used..][1..] == answers[used + 1..];
        match answers[used]
        case WouldBlock => return Pending;
        case Fail(error) => return Failed(error);
        case Accept(limit) =>
          var n := Min(limit, |first| + |second|);
          if n == 0 { return BrokenPipe; }
          sent := sent + (first + second)[..n];
          assert (header + payload)[..written + n]
              == (header + payload)[..written] + (header + payload)[written..][..n];
          written := written + n;
          used := used + 1;
      }
      outcome := Done;
      assert (header + payload)[..total] == header + payload;
    }
  }
}
