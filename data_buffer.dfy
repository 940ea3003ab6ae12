/** The fixed-length sample FIFO every power-supply channel keeps: pre-filled
    with zeros, one sample in and the oldest out on each update, and a trailing
    average over the newest samples. */
module Buffers {
  import opened PyBase

  /** `n` zero samples, the state np.zeros(n) puts into the deque. */
  function Zeros(n: nat): (z: seq<real>)
    ensures |z| == n
    ensures forall k :: 0 <= k < n ==> z[k] == 0.0
  {
    seq(n, _ => 0.0)
  }

  /** Sum of the samples. */
  function Sum(s: seq<real>): real
  {
    if |s| == 0 then 0.0 else s[0] + Sum(s[1..])
  }

  /** The buffer after one update: the oldest sample leaves, `x` becomes the newest. */
  function Shift(b: seq<real>, x: real): (r: seq<real>)
    requires |b| > 0
    ensures |r| == |b|
    ensures r[|b| - 1] == x
    ensures forall k :: 0 <= k < |b| - 1 ==> r[k] == b[k + 1]
  {
    b[1..] + [x]
  }

  /** The buffer after updating with every value of `xs` in order. */
  function ShiftAll(b: seq<real>, xs: seq<real>): seq<real>
    requires |b| > 0
    decreases |xs|
  {
    if |xs| == 0 then b else ShiftAll(Shift(b, xs[0]), xs[1..])
  }

  /** What average_value_from_last_n_values(n) yields: the mean of the newest
      n samples; for a negative n the loop is empty and the result is 0; n == 0
      divides by zero; an n beyond the buffer reads past its oldest sample. */
  function LastAverage(b: seq<real>, n: int): Result<real>
  {
    if n == 0 then Err(ZeroDivisionError)
    else if n > |b| then Err(IndexError)
    else if n < 0 then Ok(0.0)
    else Ok(Sum(b[|b| - n..]) / n as real)
  }

  class DataBuffer {
    const size: nat
    var buffer: seq<real>

    ghost predicate Valid()
      reads this
    {
      |buffer| == size
    }

    /** A buffer of `size` zero samples. */
    constructor (size: nat)
      ensures Valid() && this.size == size
      ensures buffer == Zeros(size)
    {
      this.size := size;
      buffer := Zeros(size);
    }

    /** popleft() then append(x); popleft() of an empty deque raises IndexError. */
    method Update(x: real) returns (r: Outcome)
      requires Valid()
      modifies this
      ensures Valid()
      ensures size == 0 ==> r == Fail(IndexError) && unchanged(this)
      ensures size > 0 ==> r == Pass && buffer == Shift(old(buffer), x)
    {
      if |buffer| == 0 {
        return Fail(IndexError);
      }
      buffer := buffer[1..];
      buffer := buffer + [x];
      r := Pass;
    }

    /** Rotates every sample out, appending a zero for each. */
    method Clear()
      requires Valid()
      modifies this
      ensures Valid()
      ensures buffer == Zeros(size)
    {
      for i := 0 to size
        invariant |buffer| == size
        invariant buffer == old(buffer)[i..] + Zeros(i)
      {
        buffer := buffer[1..];
        buffer := buffer + [0.0];
        assert old(buffer)[i + 1..] + Zeros(i + 1) == (old(buffer)[i..] + Zeros(i))[1..] + [0.0];
      }
    }

    /** Sums buffer[-1], buffer[-2], ..., buffer[-n], then divides by n. */
    method AverageOfLast(n: int) returns (r: Result<real>)
      requires Valid()
      ensures r == LastAverage(buffer, n)
    {
      var total := 0.0;
      var k := 0;
      while k < n
        invariant 0 <= k <= size
        invariant k == 0 || k <= n
        invariant total == Sum(buffer[size - k..])
      {
        if k == size {
          return Err(IndexError);   // buffer[-(size + 1)]
        }
        assert buffer[size - (k + 1)..][1..] == buffer[size - k..];
        total := total + buffer[size - 1 - k];
        k := k + 1;
      }
      if n == 0 {
        return Err(ZeroDivisionError);
      }
      assert n < 0 ==> buffer[size - k..] == [];
      r := Ok(total / n as real);
    }
  }

  // ---------------------------------------------------------------------------
  // Properties

  /** Updating with `xs` keeps the newest |b| values of b followed by xs. */
  lemma {:induction false} ShiftAllWindow(b: seq<real>, xs: seq<real>)
    requires |b| > 0
    ensures ShiftAll(b, xs) == (b + xs)[|xs|..]
    decreases |xs|
  {
    if |xs| > 0 {
      var b' := Shift(b, xs[0]);
      ShiftAllWindow(b', xs[1..]);
      assert b' + xs[1..] == (b + xs)[1..];
      assert (b + xs)[1..][|xs| - 1..] == (b + xs)[|xs|..];
    }
  }

  /** After as many updates as the buffer is long, it holds exactly the pushed values in push order. */
  lemma ShiftAllFills(b: seq<real>, xs: seq<real>)
    requires |b| > 0 && |xs| == |b|
    ensures ShiftAll(b, xs) == xs
  {
    ShiftAllWindow(b, xs);
    assert (b + xs)[|xs|..] == xs;
  }

  lemma {:induction false} SumZeros(n: nat)
    ensures Sum(Zeros(n)) == 0.0
  {
    if n > 0 {
      assert Zeros(n)[1..] == Zeros(n - 1);
      SumZeros(n - 1);
    }
  }

  /** A cleared buffer averages to zero over any admissible window. */
  lemma AverageOfCleared(size: nat, n: int)
    requires 1 <= n <= size
    ensures LastAverage(Zeros(size), n) == Ok(0.0)
  {
    assert Zeros(size)[size - n..] == Zeros(n);
    SumZeros(n);
  }

  /** Averaging over the whole buffer after it has been refilled gives the mean of the pushed values. */
  lemma AverageOfRefilled(b: seq<real>, xs: seq<real>)
    requires |b| > 0 && |xs| == |b|
    ensures LastAverage(ShiftAll(b, xs), |b|) == Ok(Sum(xs) / |xs| as real)
  {
    ShiftAllFills(b, xs);
    assert xs[0..] == xs;
  }
}
