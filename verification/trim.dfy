/** `ltrim_pointer` and `rtrim_pointer`: narrowing a captured span of the scan buffer so that it
    no longer starts or ends with white space, `=`, quotes or angle brackets.  A span is an
    offset into the buffer being scanned and a length, as the source's pointer and `size_t`. */
module Trim {
  import opened Bytes

  datatype Span = Span(start: int, len: int)

  /** Bytes `ltrim_pointer` strips from the front of a span. */
  predicate IsLeftTrim(b: Byte) {
    IsSpace(b) || b == EQ || b == DQUOTE || b == LT || b == SQUOTE
  }

  /** Bytes `rtrim_pointer` strips from the back of a span. */
  predicate IsRightTrim(b: Byte) {
    IsSpace(b) || b == EQ || b == DQUOTE || b == GT || b == SQUOTE
  }

  /** A span that lies inside the buffer. */
  predicate InBuffer(data: seq<Byte>, s: Span) {
    0 <= s.start && 0 <= s.len && s.start + s.len <= |data|
  }

  /** The span `ltrim_pointer` leaves: the front is advanced one byte at a time while the span
      is non-empty, the front has not reached `bound` and the front byte is a left-trim byte. */
  function LTrim(data: seq<Byte>, s: Span, bound: int): (r: Span)
    requires InBuffer(data, s)
    ensures InBuffer(data, r)
    ensures s.start <= r.start && r.start - s.start == s.len - r.len
    ensures forall i :: s.start <= i < r.start ==> IsLeftTrim(data[i])
    ensures r.len == 0 || r.start == bound || !IsLeftTrim(data[r.start])
    decreases s.len
  {
    if s.len > 0 && s.start != bound && IsLeftTrim(data[s.start]) then
      LTrim(data, Span(s.start + 1, s.len - 1), bound)
    else
      s
  }

  /** The span `rtrim_pointer` leaves: the back is dropped one byte at a time while the last
      byte is a right-trim byte and is not the first byte of the span, so a non-empty span
      keeps at least one byte; an empty span is left as it is. */
  function RTrim(data: seq<Byte>, s: Span): (r: Span)
    requires InBuffer(data, s)
    ensures r.start == s.start && 0 <= r.len <= s.len
    ensures s.len > 0 ==> r.len >= 1
    ensures forall i :: s.start + r.len <= i < s.start + s.len ==> IsRightTrim(data[i])
    ensures r.len <= 1 || !IsRightTrim(data[r.start + r.len - 1])
    decreases s.len
  {
    if s.len > 1 && IsRightTrim(data[s.start + s.len - 1]) then
      RTrim(data, Span(s.start, s.len - 1))
    else
      s
  }

  /** The bytes a span designates. */
  function Text(data: seq<Byte>, s: Span): seq<Byte>
    requires InBuffer(data, s)
  {
    data[s.start..s.start + s.len]
  }

  /** Both trims, in the order every action of the scanner applies them. */
  function Trimmed(data: seq<Byte>, s: Span, bound: int): (r: Span)
    requires InBuffer(data, s)
    ensures InBuffer(data, r) && s.start <= r.start && r.start + r.len <= s.start + s.len
  {
    RTrim(data, LTrim(data, s, bound))
  }

  /** `ltrim_pointer(&ptr, bounds, &len)`. */
  method LTrimPointer(data: seq<Byte>, ptr: int, bounds: int, len: int) returns (ptr': int, len': int)
    requires InBuffer(data, Span(ptr, len))
    ensures Span(ptr', len') == LTrim(data, Span(ptr, len), bounds)
  {
    ptr', len' := ptr, len;
    while len' > 0 && ptr' != bounds && IsLeftTrim(data[ptr'])
      invariant InBuffer(data, Span(ptr', len'))
      invariant LTrim(data, Span(ptr', len'), bounds) == LTrim(data, Span(ptr, len), bounds)
      decreases len'
    {
      ptr' := ptr' + 1;
      len' := len' - 1;
    }
  }

  /** `rtrim_pointer(&ptr, bounds, &len)`: `bounds` is recomputed as the last byte of the
      span before it is read, so the caller's value plays no part and is not a parameter. */
  method RTrimPointer(data: seq<Byte>, ptr: int, len: int) returns (len': int)
    requires InBuffer(data, Span(ptr, len))
    ensures Span(ptr, len') == RTrim(data, Span(ptr, len))
  {
    len' := len;
    if len' == 0 {
      return;
    }
    var bounds := ptr + len' - 1;
    while len' > 0 && ptr != bounds && IsRightTrim(data[bounds])
      invariant 1 <= len' <= len && bounds == ptr + len' - 1
      invariant RTrim(data, Span(ptr, len')) == RTrim(data, Span(ptr, len))
      decreases len'
    {
      bounds := bounds - 1;
      len' := len' - 1;
    }
  }

  /** `ltrim_pointer` then `rtrim_pointer` on a span, as every action applies them, bounded by
      the current position `p`. */
  method TrimSpan(data: seq<Byte>, ptr: int, len: int, p: int) returns (ptr': int, len': int)
    requires InBuffer(data, Span(ptr, len))
    ensures Span(ptr', len') == Trimmed(data, Span(ptr, len), p)
  {
    ptr', len' := LTrimPointer(data, ptr, p, len);
    len' := RTrimPointer(data, ptr', len');
  }
}
