/*
 * The bit writer behind the packFinal of the 3-, 5-, 7-, 9-, 11-, 13- and
 * 15-bit packers (src/bin/common/convert.h:30-62): PUTBITS2_, PUTBITS_ and
 * FLUSHBITS_. The macros keep a partial byte in `trailing`, with
 * `remaining` free bit positions left in it, and emit every byte that
 * becomes complete.
 */
module BitWriter {

  import opened Bits
  import opened Buffers

  /** The writer state: the pending bits, the free positions of the pending byte, the bytes emitted. */
  datatype Writer = Writer(trailing: bv32, remaining: bv32, out: seq<bv8>)

  /** The free positions left after PUTBITS2_. */
  function Put2Remaining(remaining: bv32, nb: bv32): (r: bv32)
    requires 1 <= remaining <= 8 && remaining <= nb <= 16
    ensures 1 <= r <= 8
  {
    if nb >= remaining + 8 then remaining + 16 - nb else remaining + 8 - nb
  }

  /** The byte PUTBITS2_ always emits: the pending bits topped up from the sample's high bits. */
  function Put2First(trailing: bv32, remaining: bv32, s: bv32, nb: bv32): bv8
    requires 1 <= remaining <= 8 && remaining <= nb <= 16
  {
    Lo8((trailing << remaining) | (s >> (nb - remaining)))
  }

  /** The sample bits left over after the first byte. */
  function Put2Low(remaining: bv32, s: bv32, nb: bv32): bv32
    requires 1 <= remaining <= 8 && remaining <= nb <= 16
  {
    s & ((1 << (nb - remaining)) - 1)
  }

  /** The second byte, emitted when the left-over bits `low` number at least eight. */
  function Put2Second(remaining: bv32, low: bv32, nb: bv32): bv8
    requires 1 <= remaining <= 8 && remaining + 8 <= nb <= 16
  {
    Lo8(low >> (nb - (remaining + 8)))
  }

  /** The pending bits after PUTBITS2_, from the left-over bits `low`. */
  function Put2Trailing(remaining: bv32, low: bv32, nb: bv32): bv32
    requires 1 <= remaining <= 8 && remaining <= nb <= 16
  {
    if nb >= remaining + 8 then low & ((1 << (nb - (remaining + 8))) - 1) else low
  }

  /** PUTBITS2_(s, nb): for nb >= remaining, at least one byte completes. */
  function Put2(wr: Writer, s: bv32, nb: bv32): (r: Writer)
    requires 1 <= wr.remaining <= 8 && wr.remaining <= nb <= 16
    ensures 1 <= r.remaining <= 8
  {
    var out := wr.out + [Put2First(wr.trailing, wr.remaining, s, nb)];
    var low := Put2Low(wr.remaining, s, nb);
    Writer(Put2Trailing(wr.remaining, low, nb), Put2Remaining(wr.remaining, nb),
           if nb >= wr.remaining + 8 then out + [Put2Second(wr.remaining, low, nb)] else out)
  }

  /** PUTBITS_ for a sample that leaves the pending byte incomplete: its bits are appended. */
  function PutAppend(wr: Writer, s: bv32, nb: bv32): (r: Writer)
    requires 1 <= nb < wr.remaining <= 8
    ensures 1 <= r.remaining <= 8
  {
    Writer((wr.trailing << nb) | s, wr.remaining - nb, wr.out)
  }

  /** PUTBITS_(s, nb): PUTBITS2_ when the sample completes the byte, otherwise just append its bits. */
  function Put(wr: Writer, s: bv32, nb: bv32): (r: Writer)
    requires 1 <= wr.remaining <= 8 && 1 <= nb <= 16
    ensures 1 <= r.remaining <= 8
  {
    if nb >= wr.remaining then Put2(wr, s, nb)
    else PutAppend(wr, s, nb)
  }

  /** FLUSHBITS_: the output once a partial byte is padded with zeros and emitted. */
  function Flush(wr: Writer): seq<bv8>
    requires 1 <= wr.remaining <= 8
  {
    if wr.remaining != 8 then wr.out + [Lo8(wr.trailing << wr.remaining)] else wr.out
  }

  /** The writer after the packFinal loop has put s[0..j] with PUTBITS_ (3-, 5- and 7-bit packers). */
  function RunPut(s: seq<bv32>, nb: bv32, j: nat): (r: Writer)
    requires 1 <= nb <= 16 && j <= |s|
    ensures 1 <= r.remaining <= 8
  {
    if j == 0 then Writer(0, 8, []) else Put(RunPut(s, nb, j - 1), s[j - 1], nb)
  }

  /** The writer after the packFinal loop has put s[0..j] with PUTBITS2_ (9- to 15-bit packers). */
  function RunPut2(s: seq<bv32>, nb: bv32, j: nat): (r: Writer)
    requires 8 <= nb <= 16 && j <= |s|
    ensures 1 <= r.remaining <= 8
  {
    if j == 0 then Writer(0, 8, []) else Put2(RunPut2(s, nb, j - 1), s[j - 1], nb)
  }

  /** The output only grows as samples are put. */
  lemma {:induction false} RunPutGrows(s: seq<bv32>, nb: bv32, j: nat, w: nat)
    requires 1 <= nb <= 16 && j <= w <= |s|
    ensures |RunPut(s, nb, j).out| <= |RunPut(s, nb, w).out|
  {
    if j < w {
      RunPutGrows(s, nb, j, w - 1);
    }
  }

  lemma {:induction false} RunPut2Grows(s: seq<bv32>, nb: bv32, j: nat, w: nat)
    requires 8 <= nb <= 16 && j <= w <= |s|
    ensures |RunPut2(s, nb, j).out| <= |RunPut2(s, nb, w).out|
  {
    if j < w {
      RunPut2Grows(s, nb, j, w - 1);
    }
  }

  lemma PutCompletes(wr: Writer, s: bv32, nb: bv32)
    requires 1 <= wr.remaining <= 8 && wr.remaining <= nb <= 16
    ensures Put(wr, s, nb) == Put2(wr, s, nb)
  {
  }

  lemma PutAppends(wr: Writer, s: bv32, nb: bv32)
    requires 1 <= nb < wr.remaining <= 8
    ensures Put(wr, s, nb) == PutAppend(wr, s, nb)
  {
  }

  /** One more sample put: the writer after j + 1 samples. */
  lemma RunPutNext(s: seq<bv32>, nb: bv32, j: nat)
    requires 1 <= nb <= 16 && j < |s|
    ensures RunPut(s, nb, j + 1) == Put(RunPut(s, nb, j), s[j], nb)
  {
  }

  lemma RunPut2Next(s: seq<bv32>, nb: bv32, j: nat)
    requires 8 <= nb <= 16 && j < |s|
    ensures RunPut2(s, nb, j + 1) == Put2(RunPut2(s, nb, j), s[j], nb)
  {
  }

  /**
   * PUTBITS2_(s, nb) on the packFinal locals trailing and remaining, storing
   * through dest at ptr. `out` (ghost) is what has been stored since destPtr:
   * the writer state Writer(trailing, remaining, out) moves to its Put2.
   */
  method PutBits2(dest: array<bv8>, ghost d0: seq<bv8>, destPtr: nat, ghost out: seq<bv8>,
                  trailing: bv32, remaining: bv32, ptr: nat, s: bv32, nb: bv32)
    returns (trailing': bv32, remaining': bv32, ptr': nat, ghost out': seq<bv8>)
    requires 1 <= remaining <= 8 && remaining <= nb <= 16
    requires ptr == destPtr + |out|
    requires destPtr + |Put2(Writer(trailing, remaining, out), s, nb).out| <= |d0|
    requires Written(dest[..], d0, destPtr, out)
    modifies dest
    ensures Writer(trailing', remaining', out') == Put2(Writer(trailing, remaining, out), s, nb)
    ensures ptr' == destPtr + |out'| && Written(dest[..], d0, destPtr, out')
  {
    // trailing <<= remaining; trailing |= s >> (nb - remaining); *(*dest)++ = (uint8_t)trailing;
    var first := Put2First(trailing, remaining, s, nb);
    SpliceExtend(d0, destPtr, out, first);
    dest[ptr] := first;
    ptr' := ptr + 1;
    out' := out + [first];
    // trailing = s & ((1U << (nb - remaining)) - 1U);
    var low := Put2Low(remaining, s, nb);
    if nb >= remaining + 8 {
      var second := Put2Second(remaining, low, nb);
      SpliceExtend(d0, destPtr, out', second);
      dest[ptr'] := second;
      ptr' := ptr' + 1;
      out' := out' + [second];
    }
    trailing' := Put2Trailing(remaining, low, nb);
    remaining' := Put2Remaining(remaining, nb);
  }

  /** The else branch of PUTBITS_: the sample's bits join the pending ones. */
  method AppendBits(trailing: bv32, remaining: bv32, s: bv32, nb: bv32, ghost out: seq<bv8>)
    returns (trailing': bv32, remaining': bv32)
    requires 1 <= nb < remaining <= 8
    ensures Writer(trailing', remaining', out) == PutAppend(Writer(trailing, remaining, out), s, nb)
  {
    trailing' := (trailing << nb) | s;
    remaining' := remaining - nb;
  }

  /**
   * PUTBITS_(s, nb): PUTBITS2_ when the sample completes the pending byte,
   * otherwise its bits are appended to the pending ones.
   */
  method PutBits(dest: array<bv8>, ghost d0: seq<bv8>, destPtr: nat, ghost out: seq<bv8>,
                 trailing: bv32, remaining: bv32, ptr: nat, s: bv32, nb: bv32)
    returns (trailing': bv32, remaining': bv32, ptr': nat, ghost out': seq<bv8>)
    requires 1 <= remaining <= 8 && 1 <= nb <= 16
    requires ptr == destPtr + |out|
    requires destPtr + |Put(Writer(trailing, remaining, out), s, nb).out| <= |d0|
    requires Written(dest[..], d0, destPtr, out)
    modifies dest
    ensures Writer(trailing', remaining', out') == Put(Writer(trailing, remaining, out), s, nb)
    ensures ptr' == destPtr + |out'| && Written(dest[..], d0, destPtr, out')
  {
    if nb >= remaining {
      PutCompletes(Writer(trailing, remaining, out), s, nb);
      trailing', remaining', ptr', out' := PutBits2(dest, d0, destPtr, out, trailing, remaining, ptr, s, nb);
    } else {
      PutAppends(Writer(trailing, remaining, out), s, nb);
      trailing', remaining' := AppendBits(trailing, remaining, s, nb, out);
      ptr', out' := ptr, out;
    }
  }

  /** The bytes packFinal stores for the samples s with PUTBITS_ and then FLUSHBITS_. */
  function FinalBits(s: seq<bv32>, nb: bv32): seq<bv8>
    requires 1 <= nb <= 16
  {
    Flush(RunPut(s, nb, |s|))
  }

  /** The bytes packFinal stores for the samples s with PUTBITS2_ and then FLUSHBITS_. */
  function FinalBits2(s: seq<bv32>, nb: bv32): seq<bv8>
    requires 8 <= nb <= 16
  {
    Flush(RunPut2(s, nb, |s|))
  }

  /** One turn of the packFinal loop: PUTBITS_(src[j], nb) moves the writer from sample j to j + 1. */
  method PutStep(src: array<bv32>, w: nat, nb: bv32, dest: array<bv8>, ghost d0: seq<bv8>, destPtr: nat,
                 ghost out: seq<bv8>, trailing: bv32, remaining: bv32, ptr: nat, j: nat)
    returns (trailing': bv32, remaining': bv32, ptr': nat, ghost out': seq<bv8>)
    requires 1 <= nb <= 16 && j < w <= src.Length
    requires Writer(trailing, remaining, out) == RunPut(src[..w], nb, j)
    requires destPtr + |RunPut(src[..w], nb, w).out| <= |d0|
    requires ptr == destPtr + |out| && Written(dest[..], d0, destPtr, out)
    modifies dest
    ensures Writer(trailing', remaining', out') == RunPut(src[..w], nb, j + 1)
    ensures ptr' == destPtr + |out'| && Written(dest[..], d0, destPtr, out')
  {
    ghost var s := src[..w];
    RunPutGrows(s, nb, j + 1, w);
    RunPutNext(s, nb, j);
    assert s[j] == src[j];
    trailing', remaining', ptr', out' := PutBits(dest, d0, destPtr, out, trailing, remaining, ptr, src[j], nb);
  }

  /**
   * The packFinal of Pack3, Pack5 and Pack7: PUTBITS_(src[j], nb) for each
   * j < w, then FLUSHBITS_, storing through dest from destPtr.
   */
  method PackFinalPutBits(src: array<bv32>, w: nat, nb: bv32, dest: array<bv8>, destPtr: nat)
    returns (ptr: nat)
    requires 1 <= nb <= 16 && w <= src.Length
    requires destPtr + |FinalBits(src[..w], nb)| <= dest.Length
    modifies dest
    ensures ptr == destPtr + |FinalBits(src[..w], nb)|
    ensures Written(dest[..], old(dest[..]), destPtr, FinalBits(src[..w], nb))
  {
    ghost var d0 := dest[..];
    ghost var s := src[..w];
    var trailing: bv32 := 0;
    var remaining: bv32 := 8;
    ghost var out: seq<bv8> := [];
    ptr := destPtr;
    var j := 0;
    while j < w
      invariant 0 <= j <= w && Writer(trailing, remaining, out) == RunPut(s, nb, j)
      invariant ptr == destPtr + |out| && Written(dest[..], d0, destPtr, out)
    {
      trailing, remaining, ptr, out := PutStep(src, w, nb, dest, d0, destPtr, out, trailing, remaining, ptr, j);
      j := j + 1;
    }
    assert Flush(Writer(trailing, remaining, out)) == FinalBits(s, nb);
    ptr := FlushBits(dest, d0, destPtr, out, trailing, remaining, ptr);
  }

  /** One turn of the packFinal loop: PUTBITS2_(src[j], nb) moves the writer from sample j to j + 1. */
  method Put2Step(src: array<bv32>, w: nat, nb: bv32, dest: array<bv8>, ghost d0: seq<bv8>, destPtr: nat,
                 ghost out: seq<bv8>, trailing: bv32, remaining: bv32, ptr: nat, j: nat)
    returns (trailing': bv32, remaining': bv32, ptr': nat, ghost out': seq<bv8>)
    requires 8 <= nb <= 16 && j < w <= src.Length
    requires Writer(trailing, remaining, out) == RunPut2(src[..w], nb, j)
    requires destPtr + |RunPut2(src[..w], nb, w).out| <= |d0|
    requires ptr == destPtr + |out| && Written(dest[..], d0, destPtr, out)
    modifies dest
    ensures Writer(trailing', remaining', out') == RunPut2(src[..w], nb, j + 1)
    ensures ptr' == destPtr + |out'| && Written(dest[..], d0, destPtr, out')
  {
    ghost var s := src[..w];
    RunPut2Grows(s, nb, j + 1, w);
    RunPut2Next(s, nb, j);
    assert s[j] == src[j];
    trailing', remaining', ptr', out' := PutBits2(dest, d0, destPtr, out, trailing, remaining, ptr, src[j], nb);
  }

  /**
   * The packFinal of Pack9, Pack11, Pack13 and Pack15: PUTBITS2_(src[j], nb)
   * for each j < w, then FLUSHBITS_.
   */
  method PackFinalPutBits2(src: array<bv32>, w: nat, nb: bv32, dest: array<bv8>, destPtr: nat)
    returns (ptr: nat)
    requires 8 <= nb <= 16 && w <= src.Length
    requires destPtr + |FinalBits2(src[..w], nb)| <= dest.Length
    modifies dest
    ensures ptr == destPtr + |FinalBits2(src[..w], nb)|
    ensures Written(dest[..], old(dest[..]), destPtr, FinalBits2(src[..w], nb))
  {
    ghost var d0 := dest[..];
    ghost var s := src[..w];
    var trailing: bv32 := 0;
    var remaining: bv32 := 8;
    ghost var out: seq<bv8> := [];
    ptr := destPtr;
    var j := 0;
    while j < w
      invariant 0 <= j <= w && Writer(trailing, remaining, out) == RunPut2(s, nb, j)
      invariant ptr == destPtr + |out| && Written(dest[..], d0, destPtr, out)
    {
      trailing, remaining, ptr, out := Put2Step(src, w, nb, dest, d0, destPtr, out, trailing, remaining, ptr, j);
      j := j + 1;
    }
    assert Flush(Writer(trailing, remaining, out)) == FinalBits2(s, nb);
    ptr := FlushBits(dest, d0, destPtr, out, trailing, remaining, ptr);
  }

  /** FLUSHBITS_: store the pending partial byte, if any, padded with zeros. */
  method FlushBits(dest: array<bv8>, ghost d0: seq<bv8>, destPtr: nat, ghost out: seq<bv8>,
                   trailing: bv32, remaining: bv32, ptr: nat)
    returns (ptr': nat)
    requires 1 <= remaining <= 8 && ptr == destPtr + |out|
    requires destPtr + |Flush(Writer(trailing, remaining, out))| <= |d0|
    requires Written(dest[..], d0, destPtr, out)
    modifies dest
    ensures ptr' == destPtr + |Flush(Writer(trailing, remaining, out))|
    ensures Written(dest[..], d0, destPtr, Flush(Writer(trailing, remaining, out)))
  {
    ptr' := ptr;
    if remaining != 8 {
      var last := Lo8(trailing << remaining);
      SpliceExtend(d0, destPtr, out, last);
      dest[ptr'] := last;
      ptr' := ptr' + 1;
    }
  }
}
