# Grok JPEG 2000: point transform, interleaving packers, window buffer and block scheduler

A Dafny model of four integer-only pieces of the Grok JPEG 2000 codec, with
proofs of what each promises.

- **Reversible component transform and DC level shift** (`mct.cpp`).
  - The three reversible kernels, modelled as in-place loops over the channel
    planes:
    - `DecompressRev`, the inverse RCT with level shift and clamp;
    - `CompressRev`, the level shift followed by the forward RCT;
    - `DecompressDcShiftRev`, the level shift and clamp of one component.
  - `genShift`, which pushes the `{min, max, shift}` triples into the schedule
    info.
  - `vscheduler`, which cuts a `stride * height` plane into line-range chunks.
  - The RCT is the one of section G.2 of ISO/IEC 15444-1, and the level shift
    is the one of section G.1. Every sample is a 32-bit lane: additions wrap
    around, and the shift by two is arithmetic.
  - Proved:
    - the kernels are each other's inverse on samples that do not wrap;
    - every decoded sample lies in its component's range;
    - a kernel call changes only its own chunk;
    - the chunks tile the plane exactly.
- **Planar-to-interleaved packers** (`convert.h`).
  - The seventeen `pack`/`packFinal` pairs that turn N-bit samples into bytes,
    and the `PUTBITS_`/`PUTBITS2_`/`FLUSHBITS_` bit writer.
  - `PlanarToInterleaved::interleave`: its generic version, which stages
    samples in `srcBuf`, packs whole chunks and flushes the rest with
    `packFinal`, and its Pack8 and Pack16 specialisations, which store every
    sample straight away.
  - `InterleaverFactory::makeInterleaver`.
  - Every packer is proved against one reference: the most-significant-bit-first
    stream of the samples' N-bit fields. The loops are proved against a
    function that cuts a row into chunks (`Chunks.Chunked`, `Chunks.Leftover`).
    The staging buffer never holds `srcChk` or more samples after the drain
    loop. Output row i lands at `i * destStride`.
- **Tile-component window buffer** (`TileComponentWindowBuffer.h`), in its
  unified mode (`use_band_buffers()` is always false).
  - The constructor's bounds, the code-block offset `transform`, the band and
    resolution pointers, the strides, `strided_area`, `alloc` and the
    `attach`/`acquire`/`transfer` ownership hooks.
  - The band pointer offsets are proved to agree with `transform`.
- **Decompress scheduler** (`DecompressScheduler.cpp`).
  - `schedule` selects the code-blocks that meet the padded band window and
    groups them per resolution, carrying resolution 0 into resolution 1's
    group.
  - It then decodes them in order with a single worker, deleting every block
    after the first failure.
  - The entropy decoder (`block->open(impl)`) is a parameter: a function from
    block to outcome.

Modules: `Arith`, `Bits`, `Buffers`, `BitWriter`, `PackerKinds`, `Packers`,
`PackerProofs`, `WriterProofs`, `Streams`, `PackStreams`, `Chunks`, `Samples`, `Staging`, `FinalPack`,
`Rows`, `Interleave`, `Mct`, `Geometry`, `WindowBuffer`, `DecompressScheduler`,
one per file.

## Model

| member | source | states |
|---|---|---|
| BitWriter.Put2Remaining | src/bin/common/convert.h:35-44 | after PUTBITS2_ the free positions of the pending byte stay within 1..8 |
| BitWriter.Put2 | src/bin/common/convert.h:30-45 | PUTBITS2_ keeps `remaining` within 1..8 |
| BitWriter.PutAppend | src/bin/common/convert.h:51-56 | the else branch of PUTBITS_ keeps `remaining` within 1..8 |
| BitWriter.Put | src/bin/common/convert.h:46-56 | PUTBITS_ keeps `remaining` within 1..8 for every sample width 1..16 |
| BitWriter.PutCompletes | src/bin/common/convert.h:47-50 | when the sample has at least `remaining` bits, PUTBITS_ is PUTBITS2_ |
| BitWriter.PutAppends | src/bin/common/convert.h:51-56 | when the sample has fewer bits than `remaining`, PUTBITS_ only appends them to the pending bits |
| BitWriter.RunPut | src/bin/common/convert.h:159-160 | the writer after any number of PUTBITS_ calls still has `remaining` within 1..8 |
| BitWriter.RunPut2 | src/bin/common/convert.h:309-310 | the writer after any number of PUTBITS2_ calls still has `remaining` within 1..8 |
| BitWriter.RunPutGrows | src/bin/common/convert.h:159-160 | the bytes PUTBITS_ has emitted only grow as samples are put |
| BitWriter.RunPut2Grows | src/bin/common/convert.h:309-310 | the bytes PUTBITS2_ has emitted only grow as samples are put |
| BitWriter.PutBits2 | src/bin/common/convert.h:30-45 | the macro on the locals `trailing`, `remaining` and `*dest` moves the writer state exactly as Put2 does and stores its new bytes right after the earlier ones |
| BitWriter.AppendBits | src/bin/common/convert.h:51-56 | the else branch of PUTBITS_ on the locals moves the writer state exactly as PutAppend does and stores nothing |
| BitWriter.PutBits | src/bin/common/convert.h:46-56 | PUTBITS_ on the locals moves the writer state exactly as Put does and stores its new bytes right after the earlier ones |
| BitWriter.PutStep | src/bin/common/convert.h:159-160 | one turn of the packFinal loop moves the writer from sample j to sample j + 1 of RunPut |
| BitWriter.Put2Step | src/bin/common/convert.h:309-310 | one turn of the packFinal loop moves the writer from sample j to sample j + 1 of RunPut2 |
| BitWriter.FlushBits | src/bin/common/convert.h:57-62 | FLUSHBITS_ stores the pending partial byte zero-padded, if there is one, after the bytes already stored |
| BitWriter.PackFinalPutBits | src/bin/common/convert.h:156-162 | the packFinal of Pack3, Pack5 and Pack7 stores FinalBits of its w samples at `*dest` and advances `*dest` past them; nothing else in `dest` changes |
| BitWriter.PackFinalPutBits2 | src/bin/common/convert.h:306-312 | the packFinal of Pack9, Pack11, Pack13 and Pack15 stores FinalBits2 of its w samples at `*dest` and advances `*dest` past them; nothing else in `dest` changes |
| Packers.Pack1Bytes | src/bin/common/convert.h:66-78 | Pack1::pack stores exactly 1 byte for its 8 samples |
| Packers.Pack2Bytes | src/bin/common/convert.h:117-124 | Pack2::pack stores exactly 1 byte for its 4 samples |
| Packers.Pack3Bytes | src/bin/common/convert.h:142-155 | Pack3::pack stores exactly 3 bytes for its 8 samples |
| Packers.Pack4Bytes | src/bin/common/convert.h:168-176 | Pack4::pack stores exactly 1 byte for its 2 samples |
| Packers.Pack5Bytes | src/bin/common/convert.h:185-200 | Pack5::pack stores exactly 5 bytes for its 8 samples |
| Packers.Pack6Bytes | src/bin/common/convert.h:212-221 | Pack6::pack stores exactly 3 bytes for its 4 samples |
| Packers.Pack7Bytes | src/bin/common/convert.h:245-262 | Pack7::pack stores exactly 7 bytes for its 8 samples |
| Packers.Pack8Bytes | src/bin/common/convert.h:274-276 | Pack8::pack stores exactly 1 byte for its 1 sample |
| Packers.Pack9Bytes | src/bin/common/convert.h:286-305 | Pack9::pack stores exactly 9 bytes for its 8 samples |
| Packers.Pack10Bytes | src/bin/common/convert.h:317-328 | Pack10::pack stores exactly 5 bytes for its 4 samples |
| Packers.Pack11Bytes | src/bin/common/convert.h:353-374 | Pack11::pack stores exactly 11 bytes for its 8 samples |
| Packers.Pack12Bytes | src/bin/common/convert.h:386-393 | Pack12::pack stores exactly 3 bytes for its 2 samples |
| Packers.Pack13Bytes | src/bin/common/convert.h:404-427 | Pack13::pack stores exactly 13 bytes for its 8 samples |
| Packers.Pack14Bytes | src/bin/common/convert.h:439-452 | Pack14::pack stores exactly 7 bytes for its 4 samples |
| Packers.Pack15Bytes | src/bin/common/convert.h:481-506 | Pack15::pack stores exactly 15 bytes for its 8 samples |
| Packers.Pack16Bytes | src/bin/common/convert.h:518-521 | Pack16::pack stores exactly 2 bytes for its 1 sample |
| Packers.Pack16BEBytes | src/bin/common/convert.h:532-536 | Pack16BE::pack stores exactly 2 bytes for its 1 sample |
| PackerProofs.Pack1Stream | src/bin/common/convert.h:66-78 | for samples that fit in 1 bit, the byte Pack1::pack stores is its 8 samples laid end to end as 1-bit fields, most significant bit first |
| PackerProofs.Pack2Stream | src/bin/common/convert.h:117-124 | for samples that fit in 2 bits, the byte Pack2::pack stores is its 4 samples laid end to end as 2-bit fields, most significant bit first |
| PackerProofs.Pack3Stream | src/bin/common/convert.h:142-155 | for samples that fit in 3 bits, the 3 bytes Pack3::pack stores are its 8 samples laid end to end as 3-bit fields, most significant bit first |
| PackerProofs.Pack4Stream | src/bin/common/convert.h:168-176 | for any samples (it masks each one to its own bits), the byte Pack4::pack stores is its 2 samples laid end to end as 4-bit fields, most significant bit first |
| PackerProofs.Pack5Stream | src/bin/common/convert.h:185-200 | for samples that fit in 5 bits, the 5 bytes Pack5::pack stores are its 8 samples laid end to end as 5-bit fields, most significant bit first |
| PackerProofs.Pack6Stream | src/bin/common/convert.h:212-221 | for samples that fit in 6 bits, the 3 bytes Pack6::pack stores are its 4 samples laid end to end as 6-bit fields, most significant bit first |
| PackerProofs.Pack7Stream | src/bin/common/convert.h:245-262 | for samples that fit in 7 bits, the 7 bytes Pack7::pack stores are its 8 samples laid end to end as 7-bit fields, most significant bit first |
| PackerProofs.Pack8Stream | src/bin/common/convert.h:274-276 | for any sample, the one byte Pack8::pack stores is its low 8 bits |
| PackerProofs.Pack9Stream | src/bin/common/convert.h:286-305 | for samples that fit in 9 bits, the 9 bytes Pack9::pack stores are its 8 samples laid end to end as 9-bit fields, most significant bit first |
| PackerProofs.Pack10Stream | src/bin/common/convert.h:317-328 | for samples that fit in 10 bits, the 5 bytes Pack10::pack stores are its 4 samples laid end to end as 10-bit fields, most significant bit first |
| PackerProofs.Pack11Stream | src/bin/common/convert.h:353-374 | for samples that fit in 11 bits, the 11 bytes Pack11::pack stores are its 8 samples laid end to end as 11-bit fields, most significant bit first |
| PackerProofs.Pack12Stream | src/bin/common/convert.h:386-393 | for samples that fit in 12 bits, the 3 bytes Pack12::pack stores are its 2 samples laid end to end as 12-bit fields, most significant bit first |
| PackerProofs.Pack13Stream | src/bin/common/convert.h:404-427 | for samples that fit in 13 bits, the 13 bytes Pack13::pack stores are its 8 samples laid end to end as 13-bit fields, most significant bit first |
| PackerProofs.Pack14Stream | src/bin/common/convert.h:439-452 | for samples that fit in 14 bits, the 7 bytes Pack14::pack stores are its 4 samples laid end to end as 14-bit fields, most significant bit first |
| PackerProofs.Pack15Stream | src/bin/common/convert.h:481-506 | for samples that fit in 15 bits, the 15 bytes Pack15::pack stores are its 8 samples laid end to end as 15-bit fields, most significant bit first |
| PackerProofs.Pack16BEStream | src/bin/common/convert.h:532-536 | for any sample, the 2 bytes Pack16BE::pack stores are its low 16 bits, high byte first |
| PackerProofs.Pack1FinalStream | src/bin/common/convert.h:79-112 | for samples that fit in their bits, Pack1::packFinal writes its w leftover samples as 1-bit MSB-first fields in exactly ceil(1·w/8) bytes; the samples past w it reads as zero never show |
| PackerProofs.Pack2FinalStream | src/bin/common/convert.h:125-137 | for samples that fit in their bits, Pack2::packFinal writes its w leftover samples as 2-bit MSB-first fields in exactly ceil(2·w/8) bytes; the samples past w it reads as zero never show |
| PackerProofs.Pack4FinalStream | src/bin/common/convert.h:177-180 | for any samples (the shift into the top nibble drops the higher bits), Pack4::packFinal writes its w leftover samples as 4-bit MSB-first fields in exactly ceil(4·w/8) bytes; the samples past w it reads as zero never show |
| PackerProofs.Pack6FinalStream | src/bin/common/convert.h:222-240 | for samples that fit in their bits, Pack6::packFinal writes its w leftover samples as 6-bit MSB-first fields in exactly ceil(6·w/8) bytes; the samples past w it reads as zero never show |
| PackerProofs.Pack10FinalStream | src/bin/common/convert.h:329-348 | for samples that fit in their bits, Pack10::packFinal writes its w leftover samples as 10-bit MSB-first fields in exactly ceil(10·w/8) bytes; the samples past w it reads as zero never show |
| PackerProofs.Pack12FinalStream | src/bin/common/convert.h:394-399 | for samples that fit in their bits, Pack12::packFinal writes its w leftover samples as 12-bit MSB-first fields in exactly ceil(12·w/8) bytes; the samples past w it reads as zero never show |
| PackerProofs.Pack14FinalStream | src/bin/common/convert.h:453-476 | for samples that fit in their bits, Pack14::packFinal writes its w leftover samples as 14-bit MSB-first fields in exactly ceil(14·w/8) bytes; the samples past w it reads as zero never show |
| WriterProofs.Writer3Stream | src/bin/common/convert.h:156-162 | for samples that fit in their bits, the PUTBITS_ loop plus FLUSHBITS_ of Pack3::packFinal emits exactly the first ceil(3·w/8) bytes of the 3-bit MSB-first stream of its w samples, last byte zero-padded |
| WriterProofs.Writer3Length | src/bin/common/convert.h:156-162 | whatever the sample values, Pack3::packFinal emits ceil(3·w/8) bytes for w samples |
| PackerProofs.Writer3FinalStream | src/bin/common/convert.h:156-162 | for samples that fit in 3 bits, the bytes of Pack3::packFinal are their MSB-first stream, zero-padded to a byte |
| WriterProofs.Writer5Stream | src/bin/common/convert.h:201-207 | for samples that fit in their bits, the PUTBITS_ loop plus FLUSHBITS_ of Pack5::packFinal emits exactly the first ceil(5·w/8) bytes of the 5-bit MSB-first stream of its w samples, last byte zero-padded |
| WriterProofs.Writer5Length | src/bin/common/convert.h:201-207 | whatever the sample values, Pack5::packFinal emits ceil(5·w/8) bytes for w samples |
| PackerProofs.Writer5FinalStream | src/bin/common/convert.h:201-207 | for samples that fit in 5 bits, the bytes of Pack5::packFinal are their MSB-first stream, zero-padded to a byte |
| WriterProofs.Writer7Stream | src/bin/common/convert.h:263-269 | for samples that fit in their bits, the PUTBITS_ loop plus FLUSHBITS_ of Pack7::packFinal emits exactly the first ceil(7·w/8) bytes of the 7-bit MSB-first stream of its w samples, last byte zero-padded |
| WriterProofs.Writer7Length | src/bin/common/convert.h:263-269 | whatever the sample values, Pack7::packFinal emits ceil(7·w/8) bytes for w samples |
| PackerProofs.Writer7FinalStream | src/bin/common/convert.h:263-269 | for samples that fit in 7 bits, the bytes of Pack7::packFinal are their MSB-first stream, zero-padded to a byte |
| WriterProofs.Writer9Stream | src/bin/common/convert.h:306-312 | for samples that fit in their bits, the PUTBITS2_ loop plus FLUSHBITS_ of Pack9::packFinal emits exactly the first ceil(9·w/8) bytes of the 9-bit MSB-first stream of its w samples, last byte zero-padded |
| WriterProofs.Writer9Length | src/bin/common/convert.h:306-312 | whatever the sample values, Pack9::packFinal emits ceil(9·w/8) bytes for w samples |
| PackerProofs.Writer9FinalStream | src/bin/common/convert.h:306-312 | for samples that fit in 9 bits, the bytes of Pack9::packFinal are their MSB-first stream, zero-padded to a byte |
| WriterProofs.Writer11Stream | src/bin/common/convert.h:375-381 | for samples that fit in their bits, the PUTBITS2_ loop plus FLUSHBITS_ of Pack11::packFinal emits exactly the first ceil(11·w/8) bytes of the 11-bit MSB-first stream of its w samples, last byte zero-padded |
| WriterProofs.Writer11Length | src/bin/common/convert.h:375-381 | whatever the sample values, Pack11::packFinal emits ceil(11·w/8) bytes for w samples |
| PackerProofs.Writer11FinalStream | src/bin/common/convert.h:375-381 | for samples that fit in 11 bits, the bytes of Pack11::packFinal are their MSB-first stream, zero-padded to a byte |
| WriterProofs.Writer13Stream | src/bin/common/convert.h:428-434 | for samples that fit in their bits, the PUTBITS2_ loop plus FLUSHBITS_ of Pack13::packFinal emits exactly the first ceil(13·w/8) bytes of the 13-bit MSB-first stream of its w samples, last byte zero-padded |
| WriterProofs.Writer13Length | src/bin/common/convert.h:428-434 | whatever the sample values, Pack13::packFinal emits ceil(13·w/8) bytes for w samples |
| PackerProofs.Writer13FinalStream | src/bin/common/convert.h:428-434 | for samples that fit in 13 bits, the bytes of Pack13::packFinal are their MSB-first stream, zero-padded to a byte |
| WriterProofs.Writer15Stream | src/bin/common/convert.h:507-513 | for samples that fit in their bits, the PUTBITS2_ loop plus FLUSHBITS_ of Pack15::packFinal emits exactly the first ceil(15·w/8) bytes of the 15-bit MSB-first stream of its w samples, last byte zero-padded |
| WriterProofs.Writer15Length | src/bin/common/convert.h:507-513 | whatever the sample values, Pack15::packFinal emits ceil(15·w/8) bytes for w samples |
| PackerProofs.Writer15FinalStream | src/bin/common/convert.h:507-513 | for samples that fit in 15 bits, the bytes of Pack15::packFinal are their MSB-first stream, zero-padded to a byte |
| PackerKinds.Precision | src/bin/common/convert.h:655-707 | every packer's sample width is between 1 and 16 bits |
| PackerKinds.SrcChk | src/bin/common/convert.h:63-541 | every packer's `srcChk` is between 1 and 8 samples |
| Packers.PackBytes | src/bin/common/convert.h:63-541 | `pack()` of any packer stores ChunkBytes bytes, that is srcChk·N/8, for its srcChk samples |
| Packers.PackFinalBytes | src/bin/common/convert.h:63-541 | `packFinal()` of any packer stores ceil(N·w/8) bytes for its 1..srcChk-1 leftover samples |
| PackerProofs.PackStream | src/bin/common/convert.h:63-541 | every packer except the native-endian Pack16 stores a chunk as the MSB-first stream of its N-bit samples. Only Pack4, Pack8 and Pack16BE, which mask, accept samples with stray high bits |
| PackerProofs.PackFinalStream | src/bin/common/convert.h:63-541 | every `packFinal()` stores its leftover samples as their MSB-first stream, zero-padded to a whole byte. The samples must fit in N bits, except for Pack4, Pack8 and Pack16BE, which mask |
| Streams.StreamAppend | src/bin/common/convert.h:572-589 | the MSB-first stream of a + b, when a fills whole bytes, is the stream of a followed by the stream of b |
| Streams.StreamSplit | src/bin/common/convert.h:572-589 | the zero-padded stream of a row is the stream of its first c samples, when they fill whole bytes, followed by the zero-padded stream of the rest |
| PackStreams.PackAsStream | src/bin/common/convert.h:63-541 | every `pack()` but Pack16's stores exactly the first ChunkBytes bytes of the MSB-first stream of its chunk, for samples that fit in N bits or any samples when the packer masks |
| PackStreams.PackFinalAsStream | src/bin/common/convert.h:63-541 | every `packFinal()` but Pack16's stores exactly the zero-padded MSB-first stream of its w leftover samples, ceil(N·w/8) bytes, under the same condition |
| PackerProofs.Pack16Native | src/bin/common/convert.h:518-521 | Pack16 stores the 16-bit field of its sample low byte first: the two stream bytes, swapped |
| FinalPack.PackFinal | src/bin/common/convert.h:63-541 | `packer.packFinal(srcBuf, &destPtr, w)` stores PackFinalBytes of the w staged samples at `destPtr` and advances it by ceil(N·w/8) |
| Chunks.Leftover | src/bin/common/convert.h:580-586 | the samples left after the whole chunks number fewer than srcChk |
| Chunks.LeftoverIsTail | src/bin/common/convert.h:580-586 | the samples left over are the last samples of the row, which the shift-down loop moves to the front of `srcBuf` |
| Chunks.ChunkedAppend | src/bin/common/convert.h:574-587 | packing a + b chunk by chunk packs a, then what a left over followed by b. This is why carrying the leftover samples from pixel to pixel packs the whole row |
| Chunks.ChunkedUnit | src/bin/common/convert.h:611-615 | with one sample per chunk, one more sample appends its own bytes and nothing is ever left over |
| Chunks.ChunkedLength | src/bin/common/convert.h:580-584 | a row of samples is q whole chunks plus its leftover, and packing it emits q·ChunkBytes bytes |
| Chunks.RowLength | src/bin/common/convert.h:572-589 | a row of m samples of N bits, packed and then flushed, takes ceil(m·N/8) bytes |
| Chunks.ChunkedUnitAt | src/bin/common/convert.h:611-615 | with one sample per chunk of b bytes, byte t of sample m is byte m·b + t of the packed row |
| Chunks.ChunkStep | src/bin/common/convert.h:580-584 | packing from offset i packs the chunk at i, then continues from i + srcChk |
| Streams.RowIsStream | src/bin/common/convert.h:572-589 | when every chunk is packed as its own stream and every tail as its zero-padded stream, packing a whole row chunk by chunk and flushing the tail gives the zero-padded MSB-first stream of the whole row |
| Samples.RowSamples | src/bin/common/convert.h:574-578 | a row of w pixels stages w·numPlanes samples |
| Samples.RowSampleAt | src/bin/common/convert.h:574-578 | sample k of pixel j is sample j·numPlanes + k of the row, and equals `src[k][j] + adjust` (pixel-major, plane-minor order) |
| Samples.RowSamplesPrefix | src/bin/common/convert.h:574-578 | the samples of the first j pixels begin the samples of the whole row |
| Samples.RowOffsets | src/bin/common/convert.h:592-593 | after i rows, plane pointer k has moved on by i·srcStride |
| Samples.RowSampleOf | src/bin/common/convert.h:572-578 | the staged sample of plane k, pixel j, row i is `src[k][i·srcStride + j] + adjust` |
| Samples.StagePixel | src/bin/common/convert.h:576-578 | the plane loop appends `src[k][j] + adjust` for every plane k after the samples already staged, and advances `srcOff` by numPlanes |
| Staging.Store | src/bin/common/convert.h:614 | `*(*dest)++ = b` for each byte in turn stores the bytes at `ptr` and advances `ptr` past them |
| Staging.Drain | src/bin/common/convert.h:579-584 | the drain loop packs every whole chunk of the staged samples right after the bytes already stored, and stops at the offset where the leftover samples begin |
| Staging.ShiftDown | src/bin/common/convert.h:585-586 | the leftover samples move to the front of `srcBuf` |
| Staging.RowStep | src/bin/common/convert.h:574-587 | storing the chunks of a, then the chunks of a's leftover followed by b, stores the chunks of a + b |
| Staging.StageAndDrain | src/bin/common/convert.h:576-586 | the pixel-loop body stages pixel j, packs every whole chunk at `destPtr`, and leaves exactly the leftover samples, fewer than srcChk, at the front of `srcBuf` |
| Staging.PixelStep | src/bin/common/convert.h:574-587 | one turn of the pixel loop keeps the staging invariant: the whole chunks of the pixels so far are stored, and their leftover, fewer than srcChk samples, is staged |
| Staging.StageRow | src/bin/common/convert.h:573-587 | after the pixel loop, the row's whole chunks are stored from the row start, `destPtr` is past them, and `srcBuf` holds exactly the leftover samples. `srcOff < srcChk`, so the staging buffer never overflows |
| Staging.UnitPixel | src/bin/common/convert.h:613-614 | the Pack8/Pack16 specialisation stores every sample of pixel j at once, and this is the packer applied to one-sample chunks |
| Staging.UnitSample | src/bin/common/convert.h:614 | sample k of pixel j is stored right after the samples before it |
| Staging.UnitRow | src/bin/common/convert.h:611-615 | a row of the specialisations stores exactly the packer's one-sample chunks of the row, in order, from the row start |
| Rows.OutRows | src/bin/common/convert.h:572-594 | interleave produces one output row per image row |
| Rows.OutRowsAt | src/bin/common/convert.h:572-594 | output row i is the packed row of the samples of image row i, read through the plane pointers moved on i rows |
| Rows.RowThen | src/bin/common/convert.h:587-589 | a row is its whole chunks followed by `packFinal` of the leftover, if there is any |
| Rows.RowUnit | src/bin/common/convert.h:611-615 | with one sample per chunk nothing is left for `packFinal` |
| Rows.InterleaveRow | src/bin/common/convert.h:572-589 | one row of the generic interleave stores the row's whole chunks and then, when samples are left, their `packFinal` bytes, from the row start. The staging buffer of `2·maxNumComponents` samples suffices for at most `maxNumComponents` planes |
| Rows.WriteRow | src/bin/common/convert.h:558-650 | each interleaver class writes the same row: the Pack8 specialisation stores `(uint8_t)` of every sample, the Pack16 one its `uint16_t`, and the others stage and pack |
| Rows.Advance | src/bin/common/convert.h:592-593 | every plane pointer moves on by `srcStride` |
| Rows.OffsetsNext | src/bin/common/convert.h:592-593 | moving the pointers on one row from row i reaches row i + 1 |
| Rows.OutRowsNext | src/bin/common/convert.h:572-594 | one more image row appends its output row |
| Rows.RowsStep | src/bin/common/convert.h:572-594 | the image loop moves from row i to row i + 1: one more output row, the pointers one row on, the destination row `destStride` further |
| Rows.NextRow | src/bin/common/convert.h:572-591 | row i is stored at `dest + i·destStride`, after the rows before it |
| Rows.InterleaveRows | src/bin/common/convert.h:572-594 | after the image loop, output row i sits at `i·destStride` for every i < h, and every plane pointer has moved on h·srcStride |
| Rows.OutRowsUnitAt | src/bin/common/convert.h:611-615 | with b bytes per sample, byte t of sample k of pixel j in output row i is byte t of what the packer stores for `src[k][i·srcStride + j] + adjust` |
| Rows.PaintedUnitAt | src/bin/common/convert.h:609-620 | the same byte, once painted into the destination, sits at `i·destStride + (j·numPlanes + k)·b + t` |
| Interleave.PackFnLength | src/bin/common/convert.h:63-541 | `pack()` stores ChunkBytes bytes for any chunk |
| Interleave.FinalFnLength | src/bin/common/convert.h:63-541 | `packFinal()` stores ceil(N·w/8) bytes for any w leftover samples |
| Interleave.ChunkBits | src/bin/common/convert.h:63-541 | srcChk samples of N bits fill whole bytes: srcChk·N = 8·ChunkBytes |
| Interleave.RowOutLength | src/bin/common/convert.h:572-589 | a row of m samples takes ceil(m·N/8) bytes |
| Interleave.RowOutStream | src/bin/common/convert.h:572-589 | for every packer but Pack16, the bytes of a whole row are the MSB-first stream of its samples as N-bit fields, zero-padded to a byte, whatever the chunk boundaries |
| Interleave.Pack8Unit | src/bin/common/convert.h:613-614 | the Pack8 specialisation stores exactly what `Pack8::pack` would |
| Interleave.Pack16Unit | src/bin/common/convert.h:639-642 | the Pack16 specialisation stores exactly what `Pack16::pack` would |
| Interleave.Output | src/bin/common/convert.h:558-650 | interleave produces one output row per image row |
| Interleave.OutputLength | src/bin/common/convert.h:572-594 | every output row is ceil(w·numPlanes·N/8) bytes long |
| Interleave.OutputStream | src/bin/common/convert.h:558-650 | for every packer but Pack16, output row i is the zero-padded MSB-first stream of the samples `src[k][i·srcStride + j] + adjust` of image row i, pixel-major and plane-minor |
| Interleave.OutputFits | src/bin/common/convert.h:590-591 | when every row start `i·destStride` plus ceil(w·numPlanes·N/8) fits in the destination, every output row fits where interleave stores it |
| Interleave.Interleave | src/bin/common/convert.h:558-650 | `interleave` of the interleaver for packer p stores row i of the output, the packed samples of image row i, at `i·destStride`, and moves every plane pointer on h rows. By OutputStream, that row is the MSB-first stream of the row's samples for every packer but Pack16 |
| Interleave.WholeBytes | src/bin/common/convert.h:611-643 | 8- and 16-bit samples fill whole bytes, so nothing is left to flush |
| Interleave.UnitLength | src/bin/common/convert.h:611-643 | the specialisations store 1 (Pack8) or 2 (Pack16) bytes per sample |
| Interleave.Pack8Layout | src/bin/common/convert.h:609-620 | byte `i·destStride + j·numPlanes + k` of the destination is `(uint8_t)(src[k][i·srcStride + j] + adjust)` |
| Interleave.Pack16Layout | src/bin/common/convert.h:635-649 | bytes `i·destStride + 2(j·numPlanes + k)` and the one after it are the low and high bytes of `(uint16_t)(src[k][i·srcStride + j] + adjust)` |
| Interleave.MakeInterleaver | src/bin/common/convert.h:655-713 | an interleaver exists exactly for precisions 1..16 and 0xFF. Precision N selects the N-bit packer, and 0xFF selects Pack16BE; anything else gives nullptr |
| Interleave.MakeInterleaverCode | src/bin/common/convert.h:655-713 | every packer is reachable from its own precision code |
| Interleave.InterleaverCodeUnique | src/bin/common/convert.h:655-713 | no other precision code selects it |
| Mct.Asr2 | src/lib/jp2/point_transform/mct.cpp:126 | `ShiftRight<2>` on a signed lane is floor division by 4: 4r ≤ x < 4r + 4 |
| Mct.Clamp | src/lib/jp2/point_transform/mct.cpp:84 | `Clamp(v, lo, hi)` lies in [lo, hi], is v when v already does, and is the nearer bound otherwise |
| Mct.DecompressRevSample | src/lib/jp2/point_transform/mct.cpp:123-131 | every channel the inverse RCT writes lies in its component's [min, max] |
| Mct.DcShiftSample | src/lib/jp2/point_transform/mct.cpp:84-85 | the shift-only kernel's output lies in [min, max], and is x + shift when that is in range |
| Mct.ForwardExact | src/lib/jp2/point_transform/mct.cpp:226-231 | on samples below 2^29 in magnitude no step of the forward RCT wraps: y = ⌊(2g + b + r)/4⌋, u = b − g, v = r − g |
| Mct.InverseExact | src/lib/jp2/point_transform/mct.cpp:126-128 | on samples below 2^29 in magnitude no step of the inverse RCT wraps: g = y − ⌊(u + v)/4⌋, r = v + g, b = u + g |
| Mct.InverseAfterForward | src/lib/jp2/point_transform/mct.cpp:126-128 | the inverse RCT undoes the forward RCT exactly on samples that do not wrap |
| Mct.ForwardAfterInverse | src/lib/jp2/point_transform/mct.cpp:229-231 | the forward RCT undoes the inverse RCT exactly: the RCT is a bijection on those samples |
| Mct.RctExample | src/lib/jp2/point_transform/mct.cpp:229-231 | (10, 20, 30) goes forward to (20, 10, −10) and back to (10, 20, 30) |
| Mct.CompressDecompressRoundTrip | src/lib/jp2/point_transform/mct.cpp:120-132 | decoding what was encoded with opposite level shifts restores every in-range sample |
| Mct.DcShiftRoundTrip | src/lib/jp2/point_transform/mct.cpp:84-85 | the decoding level shift undoes the encoding one on samples in the component's range |
| Mct.ShiftFor | src/lib/jp2/point_transform/mct.cpp:455-473 | the triple has shift = sign·dc_level_shift. Its range holds 2^prec values, is [−2^(prec−1), 2^(prec−1) − 1] for a signed component and starts at 0 for an unsigned one |
| Mct.ShiftForSigns | src/lib/jp2/point_transform/mct.cpp:471 | the encoding and decoding triples of a component share the range and have opposite shifts |
| Mct.ScheduleInfo.constructor | src/lib/jp2/point_transform/mct.cpp:395 | a fresh schedule info has no shift triples |
| Mct.ScheduleInfo.GenShift | src/lib/jp2/point_transform/mct.cpp:455-473 | `genShift(compno, ...)` appends exactly the triple of component compno and changes nothing else |
| Mct.ScheduleInfo.GenShift3 | src/lib/jp2/point_transform/mct.cpp:474-479 | `genShift(image, ...)` appends exactly three triples, for components 0, 1 and 2 in that order |
| Mct.DcShiftRevTransform | src/lib/jp2/point_transform/mct.cpp:70-87 | positions [index, index + chunkSize) of channel 0 become clamp(x + shift, min, max), and every other position keeps its value |
| Mct.DecompressRevTransform | src/lib/jp2/point_transform/mct.cpp:96-133 | each position of the chunk in the three channels becomes the clamped, shifted inverse RCT of its old triple, and positions outside the chunk keep their values |
| Mct.CompressRevTransform | src/lib/jp2/point_transform/mct.cpp:206-236 | each position of the chunk becomes the forward RCT of its shifted old triple, with no clamping, and positions outside the chunk keep their values |
| Mct.RctTransform | src/lib/jp2/point_transform/mct.cpp:320-321 | `transform.transform(info, index, chunkSize)` for either three-channel kernel changes exactly the chunk's positions |
| Mct.NumTasksCeiling | src/lib/jp2/point_transform/mct.cpp:300-301 | without 32-bit wrap-around, numTasks is the ceiling of height / linesPerTask |
| Mct.NumTasksAtMostCeiling | src/lib/jp2/point_transform/mct.cpp:300-301 | wrap-around or not, numTasks never exceeds that ceiling, so the last task starts inside the plane |
| Mct.ChunkAt | src/lib/jp2/point_transform/mct.cpp:312-318 | chunk t starts at t·linesPerTask·stride. Every chunk but the last has size linesPerTask·stride, a 32-bit product; the last holds the remaining (height − t·linesPerTask)·stride samples |
| Mct.NumSamples | src/lib/jp2/point_transform/mct.cpp:340 | the single worker's sample count is stride·height whenever that fits in 32 bits, and never more |
| Mct.NumSamplesWraps | src/lib/jp2/point_transform/mct.cpp:340 | a 65536 × 65536 plane gives the single worker 0 samples, since the product wraps in 32 bits |
| Mct.ChunksDisjoint | src/lib/jp2/point_transform/mct.cpp:312-318 | no position lies in two chunks |
| Mct.ChunkInsidePlane | src/lib/jp2/point_transform/mct.cpp:312-318 | every chunk ends inside the plane [0, stride·height) |
| Mct.PlaneInsideChunks | src/lib/jp2/point_transform/mct.cpp:312-318 | without wrap-around, every position of the plane lies in some chunk |
| Mct.ChunkCovers | src/lib/jp2/point_transform/mct.cpp:312-318 | a position on a line of task t's line range lies in chunk t |
| Mct.ScheduledIsPlane | src/lib/jp2/point_transform/mct.cpp:296-344 | both paths of vscheduler hand the kernel exactly the positions of [0, stride·height) |
| Mct.VSchedulerDcShift | src/lib/jp2/point_transform/mct.cpp:296-344 | `vscheduler<DecompressDcShiftRev>` shifts and clamps every scheduled position once and leaves the rest unchanged |
| Mct.VSchedulerRct | src/lib/jp2/point_transform/mct.cpp:296-344 | `vscheduler<DecompressRev>` and `vscheduler<CompressRev>` apply their kernel to every scheduled triple once and leave the rest unchanged |
| Mct.DecompressDcShiftRev | src/lib/jp2/point_transform/mct.cpp:403-409 | `decompress_dc_shift_rev` shifts and clamps component compno with its sign +1 triple at every scheduled position |
| Mct.DecompressRev | src/lib/jp2/point_transform/mct.cpp:427-433 | `decompress_rev` applies the inverse kernel with the sign +1 triples of components 0..2 at every scheduled position |
| Mct.CompressRev | src/lib/jp2/point_transform/mct.cpp:437-443 | `compress_rev` applies the forward kernel with the sign −1 triples at every scheduled position |
| Mct.CompressRevDecompressRev | src/lib/jp2/point_transform/mct.cpp:427-443 | what `compress_rev` writes at a sample, `decompress_rev` turns back into the original sample, when the level shifts are small and the sample lies in its components' ranges |
| Geometry.Width | src/lib/jp2/tile/TileComponentWindowBuffer.h:147-148 | `width()` is x1 − x0 for an ordered rectangle |
| Geometry.Height | src/lib/jp2/tile/TileComponentWindowBuffer.h:149-150 | `height()` is y1 − y0 for an ordered rectangle |
| Geometry.Intersection | src/lib/jp2/tile/TileComponentWindowBuffer.h:82-86 | the intersection holds exactly the points of both rectangles, and is ordered only when both are |
| Geometry.NonEmptyIntersection | src/lib/jp2/scheduling/DecompressScheduler.cpp:47-52 | true exactly when the two rectangles share a point |
| Geometry.CeilQuotient | src/lib/jp2/point_transform/mct.cpp:300-301 | (a + d − 1) / d is the ceiling of a / d and at most a |
| Geometry.CeilDivPow2 | src/lib/jp2/tile/TileComponentWindowBuffer.h:81 | `ceildivpow2(a, b)` is the ceiling of a / 2^b |
| Geometry.CeilDivPow2Monotone | src/lib/jp2/tile/TileComponentWindowBuffer.h:81 | `ceildivpow2` is monotone |
| Geometry.RectCeilDivPow2 | src/lib/jp2/tile/TileComponentWindowBuffer.h:81 | `rectceildivpow2` keeps an ordered rectangle ordered |
| WindowBuffer.Buffer2d.constructor | src/lib/jp2/tile/TileComponentWindowBuffer.h:109 | a new buffer has the given bounds, no data, stride 0 and no ownership |
| WindowBuffer.Buffer2d.Alloc | src/lib/jp2/tile/TileComponentWindowBuffer.h:36-44 | `alloc(clear)` succeeds exactly when the allocator returns a block. The buffer then owns the block, zero-filled iff clear; on failure nothing changes |
| WindowBuffer.Buffer2d.Attach | src/lib/jp2/tile/TileComponentWindowBuffer.h:274-276 | the buffer points at the caller's data with the caller's stride, without owning it |
| WindowBuffer.Buffer2d.Acquire | src/lib/jp2/tile/TileComponentWindowBuffer.h:278-280 | the buffer points at the caller's data with the caller's stride, and owns it |
| WindowBuffer.Buffer2d.Transfer | src/lib/jp2/tile/TileComponentWindowBuffer.h:282-284 | the data, ownership and stride are handed out; the buffer keeps neither data nor ownership |
| WindowBuffer.DecodeBounds | src/lib/jp2/tile/TileComponentWindowBuffer.h:81-83 | the decode bounds hold exactly the points of the window reduced by 2^(numres − reduced) that lie in the reduced tile |
| WindowBuffer.StridedAreaAgreement | src/lib/jp2/tile/TileComponentWindowBuffer.h:269-271 | the 32-bit product `strided_area` computes equals the true area exactly when the area fits in 32 bits |
| WindowBuffer.StridedAreaWraps | src/lib/jp2/tile/TileComponentWindowBuffer.h:269-271 | for a 65536 × 65536 window the 32-bit product is 0, while the area is 2^32 |
| WindowBuffer.StridedAreaCovers | src/lib/jp2/tile/TileComponentWindowBuffer.h:269-271 | the intended strided area covers every sample x + y·stride of the buffer |
| WindowBuffer.TileComponentWindowBuffer.constructor | src/lib/jp2/tile/TileComponentWindowBuffer.h:66-111 | decoding sets the bounds to DecodeBounds and the unreduced bounds to window ∩ unreduced tile, while encoding keeps the tile dimensions. The resolutions are the first reduced_num_resolutions in order, and exactly one resolution buffer, sized to the bounds, is created |
| WindowBuffer.TileComponentWindowBuffer.Transform | src/lib/jp2/tile/TileComponentWindowBuffer.h:127-154 | when no uint32 step wraps, the offset becomes relative to the band's origin, plus the previous resolution's width for HL and HH and its height for LH and HH. It requires bandIndex < 3, and the LL index for resolution 0 |
| WindowBuffer.TileComponentWindowBuffer.PtrRes | src/lib/jp2/tile/TileComponentWindowBuffer.h:206-208 | in unified mode `ptr(resno)` is `ptr()` |
| WindowBuffer.TileComponentWindowBuffer.StrideBand | src/lib/jp2/tile/TileComponentWindowBuffer.h:224-228 | in unified mode `stride(resno, bandIndex)` is the tile buffer's stride |
| WindowBuffer.TileComponentWindowBuffer.StrideRes | src/lib/jp2/tile/TileComponentWindowBuffer.h:230-232 | in unified mode `stride(resno)` is the tile buffer's stride |
| WindowBuffer.TileComponentWindowBuffer.PtrBand | src/lib/jp2/tile/TileComponentWindowBuffer.h:174-198 | `ptr(resno, bandIndex)` points into the tile buffer's data, for resno > 0 and bandIndex < 3 |
| WindowBuffer.TileComponentWindowBuffer.PtrAgreesWithTransform | src/lib/jp2/tile/TileComponentWindowBuffer.h:144-198 | the offset `ptr(resno, bandIndex)` adds is the linear offset of the band's own origin after `transform` |
| WindowBuffer.TileComponentWindowBuffer.TransformQuadrant | src/lib/jp2/tile/TileComponentWindowBuffer.h:135-153 | `transform` puts a point of an HL or HH band at or right of the previous resolution's width, and a point of an LH or HH band at or below its height, inside the band's own extent |
| WindowBuffer.TileComponentWindowBuffer.Alloc | src/lib/jp2/tile/TileComponentWindowBuffer.h:239-254 | `alloc` succeeds exactly when every allocation does, and zero-fills only when decoding; on failure the tile buffer keeps its data and ownership |
| WindowBuffer.TileComponentWindowBuffer.Attach | src/lib/jp2/tile/TileComponentWindowBuffer.h:274-276 | the tile buffer borrows the caller's data |
| WindowBuffer.TileComponentWindowBuffer.Acquire | src/lib/jp2/tile/TileComponentWindowBuffer.h:278-280 | the tile buffer takes ownership of the caller's data |
| WindowBuffer.TileComponentWindowBuffer.Transfer | src/lib/jp2/tile/TileComponentWindowBuffer.h:282-284 | the tile buffer hands out its data, ownership and stride, and ceases to own the data |
| DecompressScheduler.GainB | src/lib/jp2/scheduling/DecompressScheduler.cpp:21 | `gain_b[orientation]` counts the band's high-pass filterings: 0 for LL, 1 for HL and LH, 2 for HH |
| DecompressScheduler.KMsbs | src/lib/jp2/scheduling/DecompressScheduler.cpp:68 | k_msbs is band numbps − cblk numbps when that is not negative, and wraps modulo 256 otherwise |
| DecompressScheduler.NominalDimValues | src/lib/jp2/scheduling/DecompressScheduler.cpp:85-86 | the nominal code-block dimension is 0 for exponent 0 and 2^e for 0 < e < 16, and the 16-bit cast makes it 0 for larger e |
| DecompressScheduler.CblkBlocksMembers | src/lib/jp2/scheduling/DecompressScheduler.cpp:49-71 | a descriptor is among a precinct's exactly when it was filled from one of its selected code-blocks |
| DecompressScheduler.PrecinctBlocksMembers | src/lib/jp2/scheduling/DecompressScheduler.cpp:45-73 | a descriptor is created for a code-block exactly when decoding the whole tile, or when the padded band window meets both its precinct and its bounds |
| DecompressScheduler.GroupingTwo | src/lib/jp2/scheduling/DecompressScheduler.cpp:75-78 | after resolutions 0 and 1 nothing is pending, and the first group is their blocks together, if there are any |
| DecompressScheduler.GroupingState | src/lib/jp2/scheduling/DecompressScheduler.cpp:37-79 | after two or more resolutions nothing is pending, and the groups are the non-empty merged lists |
| DecompressScheduler.GroupsAreMerged | src/lib/jp2/scheduling/DecompressScheduler.cpp:75-83 | the emitted groups are the non-empty lists among resolutions 0 and 1 together, then every later resolution on its own |
| DecompressScheduler.GroupsNonEmpty | src/lib/jp2/scheduling/DecompressScheduler.cpp:75-83 | no emitted group is empty |
| DecompressScheduler.GroupsPreserveOrder | src/lib/jp2/scheduling/DecompressScheduler.cpp:75-83 | the groups hold every selected block exactly once, in enumeration order |
| DecompressScheduler.GroupsCarryResolutionZero | src/lib/jp2/scheduling/DecompressScheduler.cpp:75-78 | resolution 0's blocks are not emitted alone: they open resolution 1's group |
| DecompressScheduler.MergedFlatten | src/lib/jp2/scheduling/DecompressScheduler.cpp:75-83 | carrying resolution 0 into resolution 1 keeps every block and their order |
| DecompressScheduler.RunOk | src/lib/jp2/scheduling/DecompressScheduler.cpp:94-114 | the single-worker result is true exactly when every block decodes |
| DecompressScheduler.RunOpensPrefix | src/lib/jp2/scheduling/DecompressScheduler.cpp:97-112 | the blocks handed to the decoder are a prefix of the enumeration, and all of it when every block decodes |
| DecompressScheduler.RunStopsAtFailure | src/lib/jp2/scheduling/DecompressScheduler.cpp:99-110 | every block handed to the decoder but the last one decoded, and on failure the last one handed over is the one that failed |
| DecompressScheduler.Scheduler.constructor | src/lib/jp2/scheduling/DecompressScheduler.cpp:23-31 | a new scheduler has no groups, no decoders and has opened and deleted nothing |
| DecompressScheduler.Scheduler.DecompressBlock | src/lib/jp2/scheduling/DecompressScheduler.cpp:154-170 | the block is opened and deleted exactly once on every path, and a thrown runtime_error becomes false |
| DecompressScheduler.Scheduler.RunGroup | src/lib/jp2/scheduling/DecompressScheduler.cpp:99-111 | the inner loop continues the run over one group: each block is decoded while all before it decoded, otherwise only deleted |
| DecompressScheduler.Scheduler.RunSingleWorker | src/lib/jp2/scheduling/DecompressScheduler.cpp:93-115 | the single-worker loop decodes blocks in enumeration order up to the first failure, deletes every block exactly once, and returns whether all decoded |
| DecompressScheduler.Scheduler.EnumerateBlocks | src/lib/jp2/scheduling/DecompressScheduler.cpp:37-83 | the resolution loop emits exactly the groups of resolutions 0..highest |
| DecompressScheduler.Scheduler.MakeT1Implementations | src/lib/jp2/scheduling/DecompressScheduler.cpp:87-89 | one T1 decoder is made per worker, each with the nominal code-block dimensions |
| DecompressScheduler.Scheduler.Schedule | src/lib/jp2/scheduling/DecompressScheduler.cpp:33-115 | `schedule` emits the groups and one decoder per worker. With one worker and some blocks it decodes in order up to the first failure, deletes every block, and returns whether all decoded; with no blocks, or with several workers, it returns true and decodes nothing itself |
| DecompressScheduler.AppendResolution | src/lib/jp2/scheduling/DecompressScheduler.cpp:40-74 | the band loop appends the descriptors of resolution resno, band by band |
| DecompressScheduler.AppendBand | src/lib/jp2/scheduling/DecompressScheduler.cpp:45-73 | the precinct loop appends the descriptors of the selected code-blocks of the selected precincts |
| DecompressScheduler.AppendPrecinct | src/lib/jp2/scheduling/DecompressScheduler.cpp:49-72 | the code-block loop appends a descriptor for every code-block that meets the padded band window, or for all of them when decoding the whole tile |

## Left out

- The irreversible (floating-point) kernels of `mct.cpp` (`DecompressIrrev`, `CompressIrrev`, `DecompressDcShiftIrrev`), `calculate_norms` and the custom-matrix `compress_custom`/`decompress_custom`: they compute in floating point.
- Mct.DcShiftRevTransform, Mct.DecompressRevTransform, Mct.CompressRevTransform: every kernel loop is modelled with one lane per step, so `Lanes(di)` is 1. The loops at `src/lib/jp2/point_transform/mct.cpp:81-85`, `120-131` and `226-234` step by `Lanes(di)` and load and store whole vectors. When `chunkSize` is not a multiple of the lane count, the last vector reads and writes up to `Lanes(di) - 1` samples past the chunk. That over-run is not modelled. So the frame clauses of these three methods (positions outside the chunk keep their values) hold only for one lane or for chunks whose size is a multiple of the lane count. Within the chunk the lanes are independent, so the values written there do not depend on the width.
- Mct.VSchedulerDcShift, Mct.VSchedulerRct: the disjointness of the tasks' chunks (Mct.ChunksDisjoint) is about the chunks as `vscheduler` hands them out; with several lanes and chunks that are not a multiple of the lane count, neighbouring tasks may also touch each other's first samples, which is not modelled.
- Mct.VSchedulerDcShift: the multi-worker path of `vscheduler` runs its chunks as taskflow tasks in any order; the model applies the kernel chunk by chunk, and the contract states the result as the set of scheduled positions, which does not depend on the order because the chunks are disjoint. The task graph itself and `info.flow_` are not modelled.
- Mct.VSchedulerRct: the same holds for the three-channel kernels.
- Mct.ScheduledIsPlane: the exact tiling of the plane is proved only when `height + linesPerTask - 1` and `stride * height` fit in 32 bits. Without that, only that the chunks are disjoint and stay inside the plane is proved (ChunksDisjoint, ChunkInsidePlane).
- Mct.InverseAfterForward: the round trips are proved only for samples small enough that no 32-bit step wraps; beyond that the wrap-around is modelled, but no round trip is claimed.
- DecompressScheduler.Scheduler.Schedule: with more than one worker `schedule` builds one taskflow task per block and returns true; the tasks run later on the thread pool and are not modelled, so the contract only says that it returns true and decodes nothing itself.
- The T1 entropy decoder (`block->open(impl)`, `T1Factory::makeT1`): it is a parameter, a function from block to outcome (a result or a thrown `runtime_error`), and a T1 decoder is a record of its nominal code-block dimensions. `GRK_ERROR` logging is left out.
- `grk_rect_u32`, `grk_buffer_2d`, `Resolution`, the tile band and the precinct are not part of this model. They get minimal models: a rectangle with `width`, `height`, `intersection`, `nonEmptyIntersection` and `rectceildivpow2`, and a buffer with its data pointer, stride and ownership flag. The allocator is a parameter: the block it returns, or Null.
- The band-buffer mode of `TileComponentWindowBuffer.h` (`use_band_buffers()`, `band_buf`, the band windows of `res_buf` and the sanity loop of `alloc` over several resolution buffers): `use_band_buffers()` always returns false, so that code never runs.
- `bounds()` and `unreduced_bounds()` are the fields `bounds` and `unreducedBounds` themselves; `dest_buf` is `tile_buf()` in unified mode, which is `TileBuf`.
- Interleave.Pack16Layout: the Pack16 specialisation stores a native `uint16_t`; the model fixes the byte order to little-endian.
- The 32-bit lane arithmetic of the kernels wraps around, as Highway's `int32_t` vectors do, although signed overflow in scalar C++ would be undefined.
- The planes of `interleave` are sequences, read through an array of per-plane offsets that stands for the `src` pointer array; the destination is an array of bytes. Interleave.Interleave requires the offsets array and the destination to be distinct objects, which they are in C++ (a local pointer array and the caller's buffer).
- Interleave.Interleave: the generic loop stages samples in `srcBuf[2 * maxNumComponents]`. After each drain loop fewer than `srcChk` samples remain (`src/bin/common/convert.h:579-586`), so a pixel writes `srcBuf` up to index `srcChk - 1 + numPlanes - 1`, and the buffer is big enough whenever `srcChk - 1 + numPlanes <= 2 * maxNumComponents`. The model requires the stronger, documented bound of at most `maxNumComponents` (10) planes for the packers that stage, the bound the TIFF writer checks before packing (`src/bin/image_format/TIFFFormat.cpp:134`). Images with 11 to `21 - srcChk` planes would fit in `srcBuf` but are not modelled.
- Interleave.RowOutStream, Interleave.OutputStream: the stream form of a row is stated for every packer but Pack16, whose native `uint16_t` store is stated byte by byte by Interleave.Pack16Layout. For the packers that do not mask, it also requires the samples to fit in N bits; the bytes stored for wider samples are modelled (Packers.PackBytes), but are not a stream.
- Rows.InterleaveRow: the row loop is generic in the bytes `pack` and `packFinal` store, while FinalPack.PackFinal and the BitWriter members model the `PUTBITS_` loops of `packFinal` on their own.
- The three interleaver classes share one image loop, with a per-row choice between staging and storing each sample straight away.
- The conversion routines declared at `src/bin/common/convert.h:717-768` have no bodies in that file and are not modelled.
- The callers and context files (TIFF/PNG formats, the file format, the codec entry points, the T1 schedulers, the unit test) are not part of this model.
- Pointers and C types: bytes are `bv8`, samples are `bv32` after the `(uint32_t)` cast, pointers are offsets, and `delete` is a record in the scheduler's `deleted` list.

## Findings

| source | as written | input that shows it | evidently intended | confidence | as-written member | corrected member |
|---|---|---|---|---|---|---|
| src/lib/jp2/tile/TileComponentWindowBuffer.h:269-271 | `strided_area()` multiplies the `uint32_t` stride by the `uint32_t` height, so the product wraps modulo 2^32 before it is widened to the `uint64_t` result | stride = height = 65536: the result is 0 instead of 2^32 | the 64-bit product of stride and height | medium, not executed | WindowBuffer.StridedAreaAsWritten, with WindowBuffer.StridedAreaWraps | WindowBuffer.StridedAreaOf, with WindowBuffer.StridedAreaCovers and WindowBuffer.StridedAreaAgreement |
| src/lib/jp2/point_transform/mct.cpp:340 | the single-worker path computes `stride * height()` in `uint32_t` before widening it to `size_t` (the chunk size `linesPerTask * stride` at line 316 is a `uint32_t` product too) | stride = height = 65536: numSamples is 0, so the kernel transforms nothing | the 64-bit product, so that every sample of the plane is transformed | medium, not executed | Mct.NumSamples, with Mct.NumSamplesWraps | Mct.ScheduledIsPlane |
