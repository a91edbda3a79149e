/*
 * The packers of src/bin/common/convert.h:63-541 as the rest of the
 * program sees them: which packer, its bits per sample, the samples one
 * pack() call takes (the static srcChk member) and the bytes it writes.
 */
module PackerKinds {

  datatype Packer =
    | Pack1 | Pack2 | Pack3 | Pack4 | Pack5 | Pack6 | Pack7 | Pack8
    | Pack9 | Pack10 | Pack11 | Pack12 | Pack13 | Pack14 | Pack15 | Pack16
    | Pack16BE

  /** Bits per sample. */
  function Precision(p: Packer): (n: bv32)
    ensures 1 <= n <= 16
  {
    match p
    case Pack1 => 1
    case Pack2 => 2
    case Pack3 => 3
    case Pack4 => 4
    case Pack5 => 5
    case Pack6 => 6
    case Pack7 => 7
    case Pack8 => 8
    case Pack9 => 9
    case Pack10 => 10
    case Pack11 => 11
    case Pack12 => 12
    case Pack13 => 13
    case Pack14 => 14
    case Pack15 => 15
    case Pack16 => 16
    case Pack16BE => 16
  }

  /** The static srcChk member: samples per pack() call. */
  function SrcChk(p: Packer): (c: nat)
    ensures 1 <= c <= 8
  {
    match p
    case Pack1 => 8
    case Pack2 => 4
    case Pack3 => 8
    case Pack4 => 2
    case Pack5 => 8
    case Pack6 => 4
    case Pack7 => 8
    case Pack8 => 1
    case Pack9 => 8
    case Pack10 => 4
    case Pack11 => 8
    case Pack12 => 2
    case Pack13 => 8
    case Pack14 => 4
    case Pack15 => 8
    case Pack16 => 1
    case Pack16BE => 1
  }

  /** Bytes written by one pack() call. */
  function ChunkBytes(p: Packer): nat
  {
    match p
    case Pack1 => 1
    case Pack2 => 1
    case Pack3 => 3
    case Pack4 => 1
    case Pack5 => 5
    case Pack6 => 3
    case Pack7 => 7
    case Pack8 => 1
    case Pack9 => 9
    case Pack10 => 5
    case Pack11 => 11
    case Pack12 => 3
    case Pack13 => 13
    case Pack14 => 7
    case Pack15 => 15
    case Pack16 => 2
    case Pack16BE => 2
  }

  /**
   * The packers whose pack() masks or truncates every sample to its own
   * bits, so that stray high bits (e.g. the sign extension of a negative
   * sample) cannot reach a neighbouring field.
   */
  predicate Masked(p: Packer)
  {
    p.Pack4? || p.Pack8? || p.Pack16? || p.Pack16BE?
  }
}
