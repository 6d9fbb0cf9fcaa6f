/** The echo buffer's recorded capacity against the memory behind it.  `echobuffer_allocated` is
    the only size `esi_parser_concat_to_echobuffer` consults before it writes, so it must be the
    size of the block `echobuffer` points to.  When the end of `esi_parser_execute` copies an
    unfinished chunk into a new overflow buffer, the nginx revision stores the size of that copy
    in `echobuffer_allocated` instead of a variable of its own, while the echo buffer keeps its
    old block.  This module models the two sizes apart, shows a write past the echo buffer that
    follows, and proves that without the overwrite every write stays inside the block. */
module EchoCapacity {
  import EsiScan

  /** The echo buffer as the allocator sees it: `size` bytes obtained from `malloc`/`realloc`,
      the recorded capacity `recorded` (`echobuffer_allocated`) and `echobuffer_index` (-1 when nothing is staged). */
  datatype EchoBuffer = EchoBuffer(size: int, recorded: int, index: int)

  /** The recorded capacity is the real one, and the staged bytes fit in it. */
  predicate Sound(e: EchoBuffer) {
    1 <= e.recorded == e.size && -1 <= e.index < e.recorded
  }

  /** The outcome of staging one byte: the new buffer, or the index of a write outside the block. */
  datatype Write = Written(buffer: EchoBuffer) | OutOfBounds(at: int)

  /** `esi_parser_concat_to_echobuffer`: the index moves on; when it reaches the recorded
      capacity, the capacity is doubled and the block reallocated to it; then the byte is
      written at the index. */
  function Concat(e: EchoBuffer): (w: Write)
    ensures w.OutOfBounds? <==> !(0 <= e.index + 1 < (if e.recorded <= e.index + 1 then 2 * e.recorded else e.size))
    ensures Sound(e) ==> w.Written? && Sound(w.buffer) && w.buffer.index == e.index + 1 && e.size <= w.buffer.size
  {
    var index := e.index + 1;
    var next := if e.recorded <= index then EchoBuffer(2 * e.recorded, 2 * e.recorded, index) else e.(index := index);
    if 0 <= index < next.size then Written(next) else OutOfBounds(index)
  }

  /** Staging `n` bytes one after the other; the first write outside the block ends it. */
  function Stage(e: EchoBuffer, n: nat): (w: Write)
    decreases n
  {
    if n == 0 then Written(e)
    else
      match Concat(e)
      case Written(next) => Stage(next, n - 1)
      case OutOfBounds(at) => OutOfBounds(at)
  }

  /** The end of `esi_parser_execute` as written, when it copies the chunk of `length` bytes into
      a new overflow buffer: the size of that copy goes to `echobuffer_allocated`; the echo
      buffer itself is neither moved nor resized. */
  function CarryOverAsWritten(e: EchoBuffer, length: int): (r: EchoBuffer)
    ensures r.size == e.size && r.index == e.index
    ensures r.recorded == (if EsiScan.OUTPUT_BUFFER_SIZE > length then EsiScan.OUTPUT_BUFFER_SIZE else length)
  {
    e.(recorded := if EsiScan.OUTPUT_BUFFER_SIZE > length then EsiScan.OUTPUT_BUFFER_SIZE else length)
  }

  /** A chunk longer than the echo buffer's block: 1024 bytes are staged when it ends, the
      recorded capacity becomes 5000, and the next staged byte is written at offset 1024 of a
      1024-byte block. */
  lemma GrownRecordOverflows()
    ensures var e := EchoBuffer(1024, 1024, 1023);
            Sound(e) && !Sound(CarryOverAsWritten(e, 5000)) && Concat(CarryOverAsWritten(e, 5000)) == OutOfBounds(1024)
  {
  }

  /** The intended end of `esi_parser_execute` leaves the echo buffer as it is (the overflow
      buffer's size is its own), so however many bytes are staged afterwards, every write lies
      inside the echo buffer's block and the recorded capacity stays the real one. */
  lemma {:induction false} StagingStaysInBounds(e: EchoBuffer, n: nat)
    requires Sound(e)
    ensures Stage(e, n).Written? && Sound(Stage(e, n).buffer) && Stage(e, n).buffer.index == e.index + n
    decreases n
  {
    if n > 0 {
      var w := Concat(e);
      StagingStaysInBounds(w.buffer, n - 1);
    }
  }
}
