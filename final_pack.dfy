/*
 * packer.packFinal(srcBuf, &destPtr, srcOff) of every packer of
 * src/bin/common/convert.h:63-541: the bytes it stores are PackFinalBytes
 * of the samples left at the end of a row.
 */
module FinalPack {

  import opened Arith
  import opened Bits
  import opened Buffers
  import opened BitWriter
  import opened Packers
  import opened PackerKinds
  import opened WriterProofs
  import opened Staging

  /**
   * packer.packFinal(srcBuf, &destPtr, w): the odd widths run the PUTBITS_ /
   * PUTBITS2_ loop, the others store their fixed bytes.
   */
  method PackFinal(p: Packer, srcBuf: array<bv32>, w: nat, dest: array<bv8>, ptr: nat) returns (ptr': nat)
    requires 1 <= w < SrcChk(p) && w <= srcBuf.Length
    requires ptr + CeilBytes(Precision(p) as nat * w) <= dest.Length
    modifies dest
    ensures ptr' == ptr + CeilBytes(Precision(p) as nat * w)
    ensures Written(dest[..], old(dest[..]), ptr, PackFinalBytes(p, srcBuf[..w]))
  {
    match p
    case Pack3 => Writer3Length(srcBuf[..w]); ptr' := PackFinalPutBits(srcBuf, w, 3, dest, ptr);
    case Pack5 => Writer5Length(srcBuf[..w]); ptr' := PackFinalPutBits(srcBuf, w, 5, dest, ptr);
    case Pack7 => Writer7Length(srcBuf[..w]); ptr' := PackFinalPutBits(srcBuf, w, 7, dest, ptr);
    case Pack9 => Writer9Length(srcBuf[..w]); ptr' := PackFinalPutBits2(srcBuf, w, 9, dest, ptr);
    case Pack11 => Writer11Length(srcBuf[..w]); ptr' := PackFinalPutBits2(srcBuf, w, 11, dest, ptr);
    case Pack13 => Writer13Length(srcBuf[..w]); ptr' := PackFinalPutBits2(srcBuf, w, 13, dest, ptr);
    case Pack15 => Writer15Length(srcBuf[..w]); ptr' := PackFinalPutBits2(srcBuf, w, 15, dest, ptr);
    case Pack1 | Pack2 | Pack4 | Pack6 | Pack10 | Pack12 | Pack14 =>
      ptr' := Store(dest, ptr, PackFinalBytes(p, srcBuf[..w]));
    case Pack8 | Pack16 | Pack16BE => assert false;
  }
}
