/**
 The adaptive read chunk: how the reader's request size follows the sizes of past reads, and the
 laws of that adaptation over whole runs of reads.
 */
module ReadChunk {
  import opened Wrappers
  import opened Bytes

  datatype Options = Options(initial: nat, max: nat, shortReads: nat)

  predicate ValidOptions(o: Options) {
    0 < o.initial <= o.max <= ISIZE_MAX / 2 && o.shortReads > 0
  }

  /** `SocketOptions::read_buffer`; the real function panics where this returns `None`. */
  function ReadBuffer(initial: nat, max: nat, shortReads: nat): (r: Option<Options>)
    ensures r.Some? <==> ValidOptions(Options(initial, max, shortReads))
    ensures r.Some? ==> r.value == Options(initial, max, shortReads)
  {
    if initial == 0 then None
    else if initial > max then None
    else if max > ISIZE_MAX / 2 then None
    else if shortReads == 0 then None
    else Some(Options(initial, max, shortReads))
  }

  const DEFAULT_OPTIONS := Options(128, 64 * 1024, 2)

  /** The adaptation state of one connection. */
  datatype Chunk = Chunk(size: nat, shorts: nat)

  function Min(a: nat, b: nat): nat {
    if a <= b then a else b
  }

  function Max(a: nat, b: nat): nat {
    if a >= b then a else b
  }

  function PowerFrom(p: nat, n: nat): (r: nat)
    requires p > 0
    ensures n <= r && (p >= n ==> r == p) && (p < n ==> r < 2 * n)
    decreases if p >= n then 0 else n - p
  {
    if p >= n then p else PowerFrom(2 * p, n)
  }

  /** `usize::next_power_of_two`. */
  function NextPowerOfTwo(n: nat): (r: nat)
    ensures n <= r && (n >= 1 ==> r < 2 * n)
  {
    PowerFrom(1, n)
  }

  function RequestSize(c: Chunk, o: Options, minRead: nat): nat {
    Min(Max(c.size, minRead), o.max)
  }

  function Grown(c: Chunk, o: Options, requested: nat, count: nat): nat {
    if count >= requested && c.size < o.max then Min(2 * c.size, o.max) else c.size
  }

  /** The size that recovery settles on after short reads of `count` bytes. */
  function Recovered(size: nat, o: Options, count: nat): nat {
    Min(Max(2 * NextPowerOfTwo(count), 2 * o.initial), size)
  }

  function AfterRead(c: Chunk, o: Options, requested: nat, count: nat): Chunk {
    var size := Grown(c, o, requested, count);
    if count == 0 then Chunk(size, c.shorts)
    else if count >= size / 2 then Chunk(size, 0)
    else if c.shorts + 1 == o.shortReads then Chunk(Recovered(size, o, count), 0)
    else Chunk(size, c.shorts + 1)
  }

  ghost predicate Within(c: Chunk, o: Options) {
    o.initial <= c.size <= o.max && c.shorts < o.shortReads
  }

  /** One read: the decoder's demand when it was prepared, and the bytes it returned. */
  datatype Read = Read(minRead: nat, count: nat)

  function Run(c: Chunk, o: Options, history: seq<Read>): Chunk
    decreases |history|
  {
    if history == [] then c
    else Run(AfterRead(c, o, RequestSize(c, o, history[0].minRead), history[0].count), o, history[1..])
  }

  /** Over any run the chunk stays between its bounds and the counter below its limit. */
  lemma {:induction false} RunStaysWithin(c: Chunk, o: Options, history: seq<Read>)
    requires ValidOptions(o) && Within(c, o)
    ensures Within(Run(c, o, history), o)
    decreases |history|
  {
    if history != [] {
      RunStaysWithin(AfterRead(c, o, RequestSize(c, o, history[0].minRead), history[0].count), o, history[1..]);
    }
  }

  /** No product or power in the adaptation leaves the `isize` range. */
  lemma AdaptationDoesNotOverflow(c: Chunk, o: Options, requested: nat, count: nat)
    requires ValidOptions(o) && Within(c, o) && c.size <= requested <= o.max
    ensures 2 * c.size <= ISIZE_MAX && 2 * o.initial <= ISIZE_MAX
    ensures 0 < count < Grown(c, o, requested, count) / 2 ==> 2 * NextPowerOfTwo(count) <= ISIZE_MAX
  {
  }

  /**
   The chunk shrinks only after a short read, and then keeps twice that read and twice the initial
   size; it grows only after a full read.
   */
  lemma RecoveryLeavesRoom(c: Chunk, o: Options, requested: nat, count: nat)
    requires ValidOptions(o) && Within(c, o) && count <= requested && c.size <= requested <= o.max
    ensures var c' := AfterRead(c, o, requested, count);
            && (c'.size < c.size ==> 1 <= count && 2 * count <= c'.size && 2 * o.initial <= c'.size)
            && (c'.size > c.size ==> count == requested && c'.size <= 2 * c.size)
  {
  }

  ghost function Power2(k: nat): nat {
    if k == 0 then 1 else 2 * Power2(k - 1)
  }

  lemma {:induction false} PowerFromDoubles(p: nat, n: nat, k: nat)
    requires p > 0 && p == Power2(k)
    ensures exists j: nat :: PowerFrom(p, n) == Power2(j)
    decreases if p >= n then 0 else n - p
  {
    if p < n {
      PowerFromDoubles(2 * p, n, k + 1);
    }
  }

  lemma {:induction false} Power2Grows(i: nat, j: nat)
    requires i <= j
    ensures 1 <= Power2(i) <= Power2(j)
    decreases j
  {
    if i < j {
      Power2Grows(i, j - 1);
    } else {
      PowerPositive(i);
    }
  }

  /** The result is a power of two, and the smallest that is not below `n`. */
  lemma NextPowerIsLeast(n: nat)
    ensures exists j: nat :: NextPowerOfTwo(n) == Power2(j)
    ensures forall j: nat :: n <= Power2(j) ==> NextPowerOfTwo(n) <= Power2(j)
  {
    assert Power2(0) == 1;
    PowerFromDoubles(1, n, 0);
    var r: nat :| NextPowerOfTwo(n) == Power2(r);
    forall j: nat | n <= Power2(j)
      ensures NextPowerOfTwo(n) <= Power2(j)
    {
      if j < r {
        Power2Grows(j, r - 1);
        Power2Grows(0, r);
        assert Power2(r) == 2 * Power2(r - 1);
      } else {
        Power2Grows(r, j);
      }
    }
  }

  /**
   How one read changes chunk and counter. A read is short if the chunk, grown if the read was full,
   has room for more than twice of it; an empty one counts as nothing. The last short read of the
   allowed number shrinks the chunk to twice the least power of two that holds the read, but not
   below twice the initial size.
   */
  lemma OneRead(c: Chunk, o: Options, requested: nat, count: nat, k: nat)
    requires count <= Power2(k) && (k > 0 ==> Power2(k - 1) < count)
    ensures var (size, c') := (if count >= requested then Min(2 * c.size, Max(o.max, c.size)) else c.size,
                               AfterRead(c, o, requested, count));
            var short := 0 < count && 2 * count + 2 <= size;
            c.size <= o.max ==>
              && (count == 0 ==> c' == Chunk(size, c.shorts))
              && (count > 0 && !short ==> c' == Chunk(size, 0))
              && (short && c.shorts + 1 != o.shortReads ==> c' == Chunk(size, c.shorts + 1))
              && (short && c.shorts + 1 == o.shortReads ==>
                    c' == Chunk(Min(size, Max(2 * Power2(k), 2 * o.initial)), 0))
  {
    hide NextPowerOfTwo;
    NextPowerIsLeast(count);
    var j: nat :| NextPowerOfTwo(count) == Power2(j);
    AtLeast(count);
    if j < k {
      Power2Grows(j, k - 1);
    } else {
      Power2Grows(k, j);
    }
    assert NextPowerOfTwo(count) == Power2(k);
  }

  lemma AtLeast(n: nat)
    ensures n <= NextPowerOfTwo(n)
  {
  }

  ghost predicate AllFull(c: Chunk, o: Options, history: seq<Read>)
    decreases |history|
  {
    history != [] ==>
      var requested := RequestSize(c, o, history[0].minRead);
      history[0].count == requested && AllFull(AfterRead(c, o, requested, history[0].count), o, history[1..])
  }

  lemma TimesAtLeastOne(a: nat, p: nat)
    requires p >= 1
    ensures a * p >= a
  {
    assert a * p == a + a * (p - 1);
  }

  lemma DoublingCap(size: nat, max: nat, p: nat)
    requires 0 < size <= max && p >= 1
    ensures Min(Min(2 * size, max) * p, max) == Min(size * (2 * p), max)
  {
    assert (2 * size) * p == size * (2 * p);
    TimesAtLeastOne(max, p);
    TimesAtLeastOne(2 * size, p);
  }

  lemma {:induction false} PowerPositive(k: nat)
    ensures Power2(k) >= 1
  {
    if k > 0 {
      PowerPositive(k - 1);
    }
  }

  /** `k` full reads take the chunk from `c` to the smaller of `c * 2^k` and the maximum. */
  lemma {:induction false} FullReadsDouble(c: Chunk, o: Options, history: seq<Read>)
    requires ValidOptions(o) && Within(c, o) && AllFull(c, o, history)
    ensures Run(c, o, history).size == Min(c.size * Power2(|history|), o.max)
    decreases |history|
  {
    if history != [] {
      var requested := RequestSize(c, o, history[0].minRead);
      var c' := AfterRead(c, o, requested, history[0].count);
      assert c'.size == Min(2 * c.size, o.max);
      FullReadsDouble(c', o, history[1..]);
      PowerPositive(|history| - 1);
      DoublingCap(c.size, o.max, Power2(|history| - 1));
    }
  }

  /** Every read returns `count` bytes. */
  ghost predicate AllEqual(history: seq<Read>, count: nat) {
    forall i :: 0 <= i < |history| ==> history[i].count == count
  }

  /** Once recovered for a read size, further reads of that size leave the chunk alone. */
  lemma {:induction false} RecoveredIsStable(c: Chunk, o: Options, history: seq<Read>, count: nat)
    requires ValidOptions(o) && Within(c, o) && AllEqual(history, count) && 1 <= count
    requires 2 * count <= c.size && Recovered(c.size, o, count) == c.size
    ensures Run(c, o, history).size == c.size
    decreases |history|
  {
    if history != [] {
      var c' := AfterRead(c, o, RequestSize(c, o, history[0].minRead), count);
      assert c'.size == c.size;
      RecoveredIsStable(c', o, history[1..], count);
    }
  }

  /**
   A run of equal short reads changes the chunk at most once: it keeps its size until the counter
   reaches its limit and from then on has exactly the recovered size. It cannot oscillate.
   */
  lemma {:induction false} EqualShortReadsSettle(c: Chunk, o: Options, history: seq<Read>, count: nat)
    requires ValidOptions(o) && Within(c, o) && AllEqual(history, count)
    requires 1 <= count < c.size / 2
    ensures Run(c, o, history).size ==
            if c.shorts + |history| < o.shortReads then c.size else Recovered(c.size, o, count)
    decreases |history|
  {
    if history != [] {
      var c' := AfterRead(c, o, RequestSize(c, o, history[0].minRead), count);
      if c.shorts + 1 < o.shortReads {
        EqualShortReadsSettle(c', o, history[1..], count);
      } else {
        RecoveredIsStable(c', o, history[1..], count);
      }
    }
  }
}
