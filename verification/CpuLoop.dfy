/** The CPU generator's loop (internal/workload/cpu.go): a 64-bit operation count
    and an unsigned 64-bit sink that tells whether any work was done. */
module CpuLoop {
  import opened Basics
  import opened Int64

  const TWO_62: int := 0x4000_0000_0000_0000

  /** What the clock and the context say at the top of the loop. */
  datatype Turn = Expired | Cancelled | GoOn

  datatype CpuError = BadDuration | ContextDone | NoWork

  datatype CpuResult = CpuResult(ops: int, error: Option<CpuError>)

  /** The blocks of a thousand additions before the loop ends. */
  function Blocks(turns: seq<Turn>): nat {
    if |turns| == 0 || !turns[0].GoOn? then 0 else 1 + Blocks(turns[1..])
  }

  /** How the loop ends; a run of turns that stops is a deadline. */
  function Ending(turns: seq<Turn>): Turn
  {
    if |turns| == 0 then Expired else if turns[0].GoOn? then Ending(turns[1..]) else turns[0]
  }

  function Sink(blocks: nat): int { (499500 * blocks) % TWO_64 }

  lemma InRangeStays(x: int)
    requires InInt64(x)
    ensures Wrap(x) == x
  {
  }

  lemma NextSum(i: int)
    ensures (i + 1) * i == i * (i - 1) + 2 * i
  {
  }

  /** The inner loop: one block. */
  method Block(ops: int, sink: int) returns (ops': int, sink': int)
    requires InInt64(ops) && 0 <= sink < TWO_64
    ensures ops' == Wrap(ops + 1000) && sink' == (sink + 499500) % TWO_64
  {
    hide Wrap;
    ops', sink' := ops, sink;
    ghost var sum := sink;
    assert Wrap(ops + 0) == ops by { InRangeStays(ops); }
    for i := 0 to 1000
      invariant ops' == Wrap(ops + i)
      invariant sink' == sum % TWO_64 && 2 * sum == 2 * sink + i * (i - 1)
    {
      ModStep(sum, i);
      NextSum(i);
      sink' := (sink' + i) % TWO_64;
      sum := sum + i;
      WrapAdds(ops + i, 1);
      ops' := Wrap(ops' + 1);
    }
  }

  /** Execute, with the clock and the context as an oracle: after k blocks the
      count is 1000k and the sink 499500k, both in 64 bits; a loop that was not
      cancelled reports missing work exactly when the sink is zero. */
  method Execute(durationMs: int, turns: seq<Turn>) returns (r: CpuResult)
    ensures durationMs <= 0 ==> r == CpuResult(0, Some(BadDuration))
    ensures durationMs > 0 ==> r.ops == Wrap(1000 * Blocks(turns))
    ensures durationMs > 0 && Ending(turns).Cancelled? ==> r.error == Some(ContextDone)
    ensures durationMs > 0 && !Ending(turns).Cancelled? ==>
              r.error == if Sink(Blocks(turns)) == 0 then Some(NoWork) else None
  {
    if durationMs <= 0 { return CpuResult(0, Some(BadDuration)); }
    var ops, sink := 0, 0;
    var i := 0;
    ghost var k := 0;
    while i < |turns| && !turns[i].Expired?
      invariant 0 <= i <= |turns| && InInt64(ops) && 0 <= sink < TWO_64
      invariant ops == Wrap(1000 * k) && sink == Sink(k)
      invariant Blocks(turns) == k + Blocks(turns[i..]) && Ending(turns) == Ending(turns[i..])
    {
      if turns[i].Cancelled? {
        return CpuResult(ops, Some(ContextDone));
      }
      WrapAdds(1000 * k, 1000);
      ModStep(499500 * k, 499500);
      ops, sink := Block(ops, sink);
      assert turns[i..][1..] == turns[i + 1..];
      i := i + 1;
      k := k + 1;
    }
    if sink == 0 {
      return CpuResult(ops, Some(NoWork));
    }
    r := CpuResult(ops, None);
  }

  /** 124875 * INVERSE is 1 modulo 2^62. */
  const INVERSE: int := 1622390218022290915
  const QUOTIENT: int := 43931

  lemma MultipleOf62(k: int, d: int)
    requires k == TWO_62 * d
    ensures k % TWO_62 == 0
  {
  }

  lemma Inverted(k: int, d: int)
    requires 124875 * k == TWO_62 * d
    ensures k == TWO_62 * (INVERSE * d - QUOTIENT * k)
  {
    assert 124875 * INVERSE == 1 + QUOTIENT * TWO_62;
    assert INVERSE * (124875 * k) == k + QUOTIENT * (TWO_62 * k);
  }

  /** The sink is zero after exactly the multiples of 2^62 blocks. */
  lemma SinkZero(k: nat)
    ensures Sink(k) == 0 <==> k % TWO_62 == 0
  {
    if Sink(k) == 0 {
      var d := 499500 * k / TWO_64;
      assert 499500 * k == TWO_64 * d;
      Inverted(k, d);
      MultipleOf62(k, INVERSE * d - QUOTIENT * k);
    }
    if k % TWO_62 == 0 {
      DivModUnique(499500 * k, 124875 * (k / TWO_62), 0);
    }
  }

  /** As long as the true count fits 63 bits, an empty sink means exactly that no
      operation was made. */
  lemma NoWorkIsExact(turns: seq<Turn>)
    requires 1000 * Blocks(turns) <= 0x7FFF_FFFF_FFFF_FFFF
    ensures Sink(Blocks(turns)) == 0 <==> Blocks(turns) == 0
    ensures Wrap(1000 * Blocks(turns)) == 1000 * Blocks(turns)
  {
    SinkZero(Blocks(turns));
  }

  /** Beyond that the two part: after 2^61 blocks the reported count is back at
      zero while the sink is not. */
  lemma CountCanWrapFirst()
    ensures var k := 0x2000_0000_0000_0000; Wrap(1000 * k) == 0 && Sink(k) != 0
  {
    SinkZero(0x2000_0000_0000_0000);
  }

  /** The blocks run are those before the first turn that is not a go; that turn, or a
      deadline, ends the loop. */
  lemma {:induction false} BlocksMean(turns: seq<Turn>)
    ensures var k := Blocks(turns);
            && k <= |turns| && (forall j :: 0 <= j < k ==> turns[j].GoOn?)
            && (if k < |turns| then !turns[k].GoOn? && Ending(turns) == turns[k] else Ending(turns).Expired?)
  {
    if |turns| == 0 || !turns[0].GoOn? {
    } else {
      BlocksMean(turns[1..]);
    }
  }
}
