/** What one call of `esi_parser_execute` of the nginx revision does, as functions on the parser's
    state: the per-byte echo step every transition runs, the actions `f2`..`f8`, the walk of the
    automaton over a buffer, the carry-over of an unfinished tag into the next call, the prescan
    that lets plain text bypass the automaton, and `esi_parser_finish`.

    Pointers into the scan buffer are offsets (`At`).  A pointer whose buffer has been released
    (the caller's chunk after the call returns, or the freed overflow buffer) is `Dangling`: the
    invariants below show that no dangling pointer is ever read.  A read through a null `tag_text`,
    which the source performs in two actions, is recorded as `fault`, after which nothing more
    happens: the process would have crashed. */
module EsiScan {
  import opened Bytes
  import opened Trim
  import opened Attributes
  import opened EsiMachine

  /** `ESI_OUTPUT_BUFFER_SIZE`, the size of the output buffer and the first size of the echo
      buffer.  No file of the model defines it; 1024, the value the filter module uses for its
      own chunk size, is assumed. */
  const OUTPUT_BUFFER_SIZE := 1024

  datatype Ptr = Null | At(off: int) | Dangling

  /** One call of a handler the parser was given. */
  datatype Call =
    | OutputCall(bytes: seq<Byte>)
    | StartTagCall(name: seq<Byte>, attributes: seq<Attribute>)
    | EndTagCall(name: seq<Byte>)

  /** The output side of the parser: the bytes waiting in `output_buffer` and the handler calls
      made so far, in order. */
  datatype Sink = Sink(buffer: seq<Byte>, calls: seq<Call>)

  /** The fields of `ESIParser` that the scanner reads and writes.  `echo` is
      `echobuffer[0..echobuffer_index]`, `echoAllocated` is `echobuffer_allocated`, `overflow` is
      `overflow_data[0..overflow_data_size]` when that buffer exists. */
  datatype Scanner = Scanner(
    cs: int,
    prevState: int,
    mark: Ptr,
    tagText: Ptr, tagTextLength: int,
    attrKey: Ptr, attrKeyLength: int,
    attrValue: Ptr, attrValueLength: int,
    echo: seq<Byte>, echoAllocated: int,
    sink: Sink,
    overflow: Option<seq<Byte>>,
    attributes: seq<Attribute>,
    fault: bool)

  /** The bytes handed to the output handler by a sequence of calls. */
  function Delivered(calls: seq<Call>): seq<Byte> {
    if calls == [] then []
    else
      var last := calls[|calls| - 1];
      Delivered(calls[..|calls| - 1]) + (if last.OutputCall? then last.bytes else [])
  }

  /** Everything the parser has let through so far: delivered, or waiting in the output buffer. */
  function Emitted(k: Sink): seq<Byte> {
    Delivered(k.calls) + k.buffer
  }

  lemma DeliveredSnoc(calls: seq<Call>, c: Call)
    ensures Delivered(calls + [c]) == Delivered(calls) + (if c.OutputCall? then c.bytes else [])
  {
    assert (calls + [c])[..|calls|] == calls;
  }

  /** `esi_parser_flush_output`: the buffered bytes go to the output handler in one call, and
      only when there are any. */
  function FlushOutput(k: Sink): (r: Sink)
    ensures Emitted(r) == Emitted(k) && r.buffer == []
    ensures k.calls <= r.calls && |r.calls| <= |k.calls| + 1
    ensures |r.calls| == |k.calls| + 1 ==> k.buffer != [] && r.calls[|k.calls|] == OutputCall(k.buffer)
  {
    if |k.buffer| > 0 then
      DeliveredSnoc(k.calls, OutputCall(k.buffer));
      Sink([], k.calls + [OutputCall(k.buffer)])
    else
      k
  }

  /** A call of the start or end tag handler as every action makes it: the output buffer is
      flushed first, so the handler sees everything let through before the tag, and flushed
      again after the call, when it is already empty. */
  function Handed(k: Sink, c: Call): (r: Sink)
    requires !c.OutputCall?
    ensures Emitted(r) == Emitted(k) && r.buffer == []
    ensures r.calls == FlushOutput(k).calls + [c]
  {
    var f := FlushOutput(k);
    DeliveredSnoc(f.calls, c);
    FlushOutput(Sink(f.buffer, f.calls + [c]))
  }

  /** Every call added after `calls` hands a full output buffer to the output handler. */
  predicate FullBlocksAfter(calls: seq<Call>, r: seq<Call>) {
    calls <= r && forall i :: |calls| <= i < |r| ==> r[i].OutputCall? && |r[i].bytes| == OUTPUT_BUFFER_SIZE
  }

  /** `esi_parser_echo_char`: the byte is let through; a full buffer is flushed at once, so the
      buffer never holds `OUTPUT_BUFFER_SIZE` bytes between calls. */
  function EchoChar(k: Sink, b: Byte): (r: Sink)
    requires |k.buffer| < OUTPUT_BUFFER_SIZE
    ensures Emitted(r) == Emitted(k) + [b]
    ensures |r.buffer| < OUTPUT_BUFFER_SIZE
    ensures FullBlocksAfter(k.calls, r.calls) && |r.calls| <= |k.calls| + 1
  {
    var full := Sink(k.buffer + [b], k.calls);
    if |full.buffer| == OUTPUT_BUFFER_SIZE then FlushOutput(full) else full
  }

  /** `esi_parser_echo_char` for each byte in turn, as `esi_parser_echo_buffer` and the prescan's
      bypass loop do. */
  function EchoAll(k: Sink, bytes: seq<Byte>): (r: Sink)
    requires |k.buffer| < OUTPUT_BUFFER_SIZE
    ensures Emitted(r) == Emitted(k) + bytes
    ensures |r.buffer| < OUTPUT_BUFFER_SIZE
    ensures FullBlocksAfter(k.calls, r.calls)
    decreases |bytes|
  {
    if bytes == [] then k
    else
      var front := bytes[..|bytes| - 1];
      assert bytes == front + [bytes[|bytes| - 1]];
      EchoChar(EchoAll(k, front), bytes[|bytes| - 1])
  }

  /** Echoing two pieces one after the other is echoing their concatenation. */
  lemma {:induction false} EchoAllAppend(k: Sink, a: seq<Byte>, b: seq<Byte>)
    requires |k.buffer| < OUTPUT_BUFFER_SIZE
    ensures EchoAll(EchoAll(k, a), b) == EchoAll(k, a + b)
    decreases |b|
  {
    if b == [] {
      assert a + b == a;
    } else {
      var front := b[..|b| - 1];
      EchoAllAppend(k, a, front);
      assert (a + b)[..|a + b| - 1] == a + front;
      assert (a + b)[|a + b| - 1] == b[|b| - 1];
    }
  }

  /** The size facts the buffers keep: the output buffer is never full between bytes and the
      echo buffer fits its allocation. */
  predicate Buffers(s: Scanner) {
    |s.sink.buffer| < OUTPUT_BUFFER_SIZE && 1 <= s.echoAllocated && |s.echo| <= s.echoAllocated
  }

  /** `esi_parser_concat_to_echobuffer`: the byte is staged; when the next index reaches the
      allocation, the allocation is doubled first, so the byte is always written inside it. */
  function ConcatToEchobuffer(s: Scanner, b: Byte): (r: Scanner)
    requires Buffers(s)
    ensures Buffers(r) && r.echo == s.echo + [b] && s.echoAllocated <= r.echoAllocated
    ensures r == s.(echo := r.echo, echoAllocated := r.echoAllocated)
  {
    var index := |s.echo|;
    var capacity := if s.echoAllocated <= index then s.echoAllocated * 2 else s.echoAllocated;
    s.(echo := s.echo + [b], echoAllocated := capacity)
  }

  /** The step every transition runs before its action, with `cs` already the new state: in
      state 0 the staged bytes and the current byte are let through, unless the previous state
      was 12 or 7 (the states before the `>` of `/>` and of `</esi:name>`), and the stage is
      cleared; in any other state the byte is staged.  `prev_state` becomes the new state. */
  function EchoStep(s: Scanner, target: int, b: Byte): (r: Scanner)
    requires Buffers(s)
    ensures Buffers(r) && r.cs == target && r.prevState == target
    ensures r == s.(cs := target, prevState := target, echo := r.echo, echoAllocated := r.echoAllocated, sink := r.sink)
    ensures target != 0 ==> r.echo == s.echo + [b] && r.sink == s.sink
    ensures target == 0 && s.prevState != 12 && s.prevState != 7 ==>
              r.echo == [] && Emitted(r.sink) == Emitted(s.sink) + s.echo + [b]
    ensures target == 0 && (s.prevState == 12 || s.prevState == 7) ==> r.echo == [] && r.sink == s.sink
  {
    if target == 0 then
      var k :=
        if s.prevState != 12 && s.prevState != 7 then
          EchoChar(if |s.echo| > 0 then EchoAll(s.sink, s.echo) else s.sink, b)
        else s.sink;
      s.(cs := 0, prevState := 0, echo := [], sink := k)
    else
      ConcatToEchobuffer(s, b).(cs := target, prevState := target)
  }

  /** A pointer and length designating bytes that lie before position `p` of the buffer. */
  predicate SpanBefore(ptr: Ptr, len: int, p: int) {
    ptr.At? && 0 <= ptr.off && 0 <= len && ptr.off + len <= p
  }

  /** The bytes of a captured span. */
  function SpanText(buf: seq<Byte>, ptr: Ptr, len: int, p: int): seq<Byte>
    requires p <= |buf| && SpanBefore(ptr, len, p)
  {
    buf[ptr.off..ptr.off + len]
  }

  /** What the action of a transition taken at position `p` needs of the state. */
  predicate Ready(s: Scanner, a: Action, buf: seq<Byte>, p: int) {
    && 0 <= p < |buf| && Buffers(s) && !s.fault
    && (MarkNeed(a) > 0 ==> s.mark.At? && 0 <= s.mark.off && s.mark.off + MarkNeed(a) <= p)
    && ((a == StartTag || a == EmptyTag) ==> s.tagText == Null || SpanBefore(s.tagText, s.tagTextLength, p))
    && (a == AttrValue ==> SpanBefore(s.attrKey, s.attrKeyLength, p))
  }

  /** `f2`: `</esi:name>` is complete.  The name is the text after `</` up to the current byte,
      trimmed; the end tag handler gets it after everything let through before it. */
  function EndTagAction(s: Scanner, buf: seq<Byte>, p: int): (r: Scanner)
    requires Ready(s, EndTag, buf, p)
    ensures SpanBefore(r.tagText, r.tagTextLength, p) && r.mark == At(p)
    ensures Span(r.tagText.off, r.tagTextLength) == Trimmed(buf, Span(s.mark.off + 2, p - (s.mark.off + 2)), p)
    ensures Emitted(r.sink) == Emitted(s.sink) && r.sink.buffer == [] && r.echo == []
    ensures r.sink.calls == FlushOutput(s.sink).calls + [EndTagCall(SpanText(buf, r.tagText, r.tagTextLength, p))]
    ensures r == s.(mark := r.mark, tagText := r.tagText, tagTextLength := r.tagTextLength, sink := r.sink, echo := [])
  {
    var name := Trimmed(buf, Span(s.mark.off + 2, p - (s.mark.off + 2)), p);
    var k := Handed(s.sink, EndTagCall(Text(buf, name)));
    assert SpanText(buf, At(name.start), name.len, p) == Text(buf, name);
    s.(mark := At(p), tagText := At(name.start), tagTextLength := name.len, sink := k, echo := [])
  }

  /** `f3`: the tag name ends at white space; it starts after the `<` at `mark`. */
  function TagNameAction(s: Scanner, buf: seq<Byte>, p: int): (r: Scanner)
    requires Ready(s, TagName, buf, p)
    ensures SpanBefore(r.tagText, r.tagTextLength, p) && r.mark == At(p)
    ensures r.tagText.off == s.mark.off + 1 && r.tagText.off + r.tagTextLength == p
    ensures r == s.(mark := r.mark, tagText := r.tagText, tagTextLength := r.tagTextLength)
  {
    s.(tagText := At(s.mark.off + 1), tagTextLength := p - (s.mark.off + 1), mark := At(p))
  }

  /** `f4`: `<esi:name>` is complete.  The start tag handler gets the trimmed name and no
      attributes; any attributes collected are released.  `tag_text` keeps the name. */
  function StartTagNoAttrsAction(s: Scanner, buf: seq<Byte>, p: int): (r: Scanner)
    requires Ready(s, StartTagNoAttrs, buf, p)
    ensures SpanBefore(r.tagText, r.tagTextLength, p) && r.mark == At(p)
    ensures Span(r.tagText.off, r.tagTextLength) == Trimmed(buf, Span(s.mark.off, p - s.mark.off), p)
    ensures Emitted(r.sink) == Emitted(s.sink) && r.sink.buffer == [] && r.echo == [] && r.attributes == []
    ensures r.sink.calls == FlushOutput(s.sink).calls + [StartTagCall(SpanText(buf, r.tagText, r.tagTextLength, p), [])]
    ensures r == s.(mark := r.mark, tagText := r.tagText, tagTextLength := r.tagTextLength, sink := r.sink, echo := [], attributes := [])
  {
    var name := Trimmed(buf, Span(s.mark.off, p - s.mark.off), p);
    var k := Handed(s.sink, StartTagCall(Text(buf, name), []));
    assert SpanText(buf, At(name.start), name.len, p) == Text(buf, name);
    s.(tagText := At(name.start), tagTextLength := name.len, mark := At(p), sink := k, attributes := [], echo := [])
  }

  /** `f5`: `<esi:name attributes>` is complete.  The start tag handler gets the trimmed name
      captured by `f3` and the attributes collected since; then both are released.  When no name
      was captured, `tag_text` is null and trimming it reads through a null pointer. */
  function StartTagAction(s: Scanner, buf: seq<Byte>, p: int): (r: Scanner)
    requires Ready(s, StartTag, buf, p)
    ensures r.fault <==> s.tagText == Null
    ensures r.fault ==> r == s.(fault := true)
    ensures !r.fault ==> && r.tagText == Null && r.tagTextLength == 0 && r.mark == At(p)
                         && Emitted(r.sink) == Emitted(s.sink) && r.sink.buffer == []
                         && r.echo == [] && r.attributes == []
                         && r == s.(mark := r.mark, tagText := Null, tagTextLength := 0, sink := r.sink, echo := [], attributes := [])
    ensures !r.fault ==>
              var name := Text(buf, Trimmed(buf, Span(s.tagText.off, s.tagTextLength), p));
              r.sink.calls == FlushOutput(s.sink).calls + [StartTagCall(name, s.attributes)]
  {
    if s.tagText == Null then s.(fault := true)
    else
      var name := Trimmed(buf, Span(s.tagText.off, s.tagTextLength), p);
      s.(sink := Handed(s.sink, StartTagCall(Text(buf, name), s.attributes)), attributes := [],
         tagText := Null, tagTextLength := 0, mark := At(p), echo := [])
  }

  /** `f6`: an attribute key is complete: the text from `mark`, trimmed. */
  function AttrKeyAction(s: Scanner, buf: seq<Byte>, p: int): (r: Scanner)
    requires Ready(s, AttrKey, buf, p)
    ensures SpanBefore(r.attrKey, r.attrKeyLength, p) && r.mark == At(p)
    ensures Span(r.attrKey.off, r.attrKeyLength) == Trimmed(buf, Span(s.mark.off, p - s.mark.off), p)
    ensures r == s.(mark := r.mark, attrKey := r.attrKey, attrKeyLength := r.attrKeyLength)
  {
    var key := Trimmed(buf, Span(s.mark.off, p - s.mark.off), p);
    s.(attrKey := At(key.start), attrKeyLength := key.len, mark := At(p))
  }

  /** `f7`, `f11`: an attribute value is complete: the text from `mark`, trimmed.  A new
      attribute made of copies of the last key and of the value is appended to the list. */
  function AttrValueAction(s: Scanner, buf: seq<Byte>, p: int): (r: Scanner)
    requires Ready(s, AttrValue, buf, p)
    ensures SpanBefore(r.attrValue, r.attrValueLength, p) && r.mark == At(p)
    ensures Span(r.attrValue.off, r.attrValueLength) == Trimmed(buf, Span(s.mark.off, p - s.mark.off), p)
    ensures |r.attributes| == |s.attributes| + 1 && r.attributes[..|s.attributes|] == s.attributes
    ensures r.attributes[|s.attributes|].name == SpanText(buf, s.attrKey, s.attrKeyLength, p) + [NUL]
    ensures r.attributes[|s.attributes|].value == SpanText(buf, r.attrValue, r.attrValueLength, p) + [NUL]
    ensures r == s.(mark := r.mark, attrValue := r.attrValue, attrValueLength := r.attrValueLength, attributes := r.attributes)
  {
    var value := Trimmed(buf, Span(s.mark.off, p - s.mark.off), p);
    var key := Span(s.attrKey.off, s.attrKeyLength);
    var keyText, valueText := Text(buf, key), Text(buf, value);
    var attr := AttributeNew(keyText, key.len, valueText, value.len);
    AttributeNewOfWhole(keyText, key.len, valueText, value.len);
    assert keyText == SpanText(buf, s.attrKey, s.attrKeyLength, p);
    assert valueText == SpanText(buf, At(value.start), value.len, p);
    var attributes := s.attributes + [attr];
    assert attributes[|s.attributes|] == attr && attributes[..|s.attributes|] == s.attributes;
    s.(attrValue := At(value.start), attrValueLength := value.len, mark := At(p), attributes := attributes)
  }

  /** `f8`: `<esi:name attributes/>` is complete.  The start tag handler and then the end tag
      handler get the trimmed name, the first with the attributes collected; then both are
      released.  As for `f5`, a null `tag_text` is read through. */
  function EmptyTagAction(s: Scanner, buf: seq<Byte>, p: int): (r: Scanner)
    requires Ready(s, EmptyTag, buf, p)
    ensures r.fault <==> s.tagText == Null
    ensures r.fault ==> r == s.(fault := true)
    ensures !r.fault ==> && r.tagText == Null && r.tagTextLength == 0 && r.mark == At(p)
                         && Emitted(r.sink) == Emitted(s.sink) && r.sink.buffer == []
                         && r.echo == [] && r.attributes == []
                         && r == s.(mark := r.mark, tagText := Null, tagTextLength := 0, sink := r.sink, echo := [], attributes := [])
    ensures !r.fault ==>
              var name := Text(buf, Trimmed(buf, Span(s.tagText.off, s.tagTextLength), p));
              r.sink.calls == FlushOutput(s.sink).calls + [StartTagCall(name, s.attributes), EndTagCall(name)]
  {
    if s.tagText == Null then s.(fault := true)
    else
      var name := Trimmed(buf, Span(s.tagText.off, s.tagTextLength), p);
      var k := Handed(s.sink, StartTagCall(Text(buf, name), s.attributes));
      assert Handed(k, EndTagCall(Text(buf, name))).calls
          == FlushOutput(s.sink).calls + [StartTagCall(Text(buf, name), s.attributes), EndTagCall(Text(buf, name))];
      s.(sink := Handed(k, EndTagCall(Text(buf, name))), attributes := [], tagText := Null, tagTextLength := 0,
         mark := At(p), echo := [])
  }

  /** The action of a transition, run after the echo step. */
  function ApplyAction(s: Scanner, a: Action, buf: seq<Byte>, p: int): (r: Scanner)
    requires Ready(s, a, buf, p)
    ensures Emitted(r.sink) == Emitted(s.sink)
    ensures r.echo == s.echo || r.echo == []
  {
    match a
    case Echo => s
    case EchoMark => s.(mark := At(p))
    case EndTag => EndTagAction(s, buf, p)
    case TagName => TagNameAction(s, buf, p)
    case StartTagNoAttrs => StartTagNoAttrsAction(s, buf, p)
    case StartTag => StartTagAction(s, buf, p)
    case AttrKey => AttrKeyAction(s, buf, p)
    case AttrValue => AttrValueAction(s, buf, p)
    case EmptyTag => EmptyTagAction(s, buf, p)
  }

  /** What holds in the middle of a call before the byte at position `p` is scanned: `mark`
      lies far enough back for every action the state can take, `tag_text` and `attr_key` are
      captured in the states whose actions read them, and nothing is staged in state 0. */
  predicate Inv(s: Scanner, p: int) {
    && 0 <= p
    && 0 <= s.cs < STATE_COUNT
    && Buffers(s)
    && (MarkLag(s.cs) >= 1 ==> s.mark.At? && 0 <= s.mark.off && s.mark.off + MarkLag(s.cs) <= p)
    && (TagTracked(s.cs) ==> s.tagText == Null || SpanBefore(s.tagText, s.tagTextLength, p))
    && (KeyTracked(s.cs) ==> SpanBefore(s.attrKey, s.attrKeyLength, p))
    && (s.cs == 0 ==> s.echo == [])
  }

  /** One byte of the generated loop: the transition, the echo step, the action. */
  function Step(s: Scanner, buf: seq<Byte>, p: int): (r: Scanner)
    requires Inv(s, p) && p < |buf| && !s.fault
    ensures Inv(r, p + 1) && r.prevState == r.cs
    ensures r.mark == Null ==> s.mark == Null
  {
    var m := Transition(s.cs, buf[p]);
    var e := EchoStep(s, m.target, buf[p]);
    ActionKeepsInv(s, e, m, buf, p);
    ApplyAction(e, m.action, buf, p)
  }

  /** The facts `KeepsSpans` records about the table are what the actions need, and what they
      leave behind is what the next state needs. */
  lemma ActionKeepsInv(s: Scanner, e: Scanner, m: Move, buf: seq<Byte>, p: int)
    requires Inv(s, p) && p < |buf| && !s.fault && KeepsSpans(s.cs, m)
    requires e == EchoStep(s, m.target, buf[p])
    ensures Ready(e, m.action, buf, p)
    ensures Inv(ApplyAction(e, m.action, buf, p), p + 1)
    ensures ApplyAction(e, m.action, buf, p).prevState == ApplyAction(e, m.action, buf, p).cs
    ensures ApplyAction(e, m.action, buf, p).mark == Null ==> s.mark == Null
  {
    var r := ApplyAction(e, m.action, buf, p);
    match m.action
    case Echo =>
    case EchoMark =>
    case EndTag =>
    case TagName =>
    case StartTagNoAttrs =>
    case StartTag =>
    case AttrKey =>
    case AttrValue =>
    case EmptyTag =>
  }

  /** No byte of the loop touches the overflow buffer. */
  lemma StepKeepsOverflow(s: Scanner, buf: seq<Byte>, p: int)
    requires Inv(s, p) && p < |buf| && !s.fault
    ensures Step(s, buf, p).overflow == s.overflow
  {
    var m := Transition(s.cs, buf[p]);
    var e := EchoStep(s, m.target, buf[p]);
    assert Step(s, buf, p) == ApplyAction(e, m.action, buf, p);
  }

  /** The generated loop from position `p` to the end of the buffer; a fault ends it. */
  function Run(s: Scanner, buf: seq<Byte>, p: int): (r: Scanner)
    requires Inv(s, p) && p <= |buf|
    ensures Inv(r, |buf|)
    ensures p < |buf| && !s.fault ==> r.prevState == r.cs
    ensures r.mark == Null ==> s.mark == Null
    decreases |buf| - p
  {
    if p == |buf| || s.fault then s else Run(Step(s, buf, p), buf, p + 1)
  }

  /** One step of `Run`. */
  lemma RunUnfold(s: Scanner, buf: seq<Byte>, p: int)
    requires Inv(s, p) && p < |buf| && !s.fault
    ensures Run(s, buf, p) == Run(Step(s, buf, p), buf, p + 1)
  {
  }

  /** `Run` at the end of the buffer or after a fault. */
  lemma RunStops(s: Scanner, buf: seq<Byte>, p: int)
    requires Inv(s, p) && p <= |buf| && (p == |buf| || s.fault)
    ensures Run(s, buf, p) == s
  {
  }

  /** A pointer into a buffer that is released: the caller's chunk once the call returns, or
      the overflow buffer once it is freed. */
  function Release(ptr: Ptr): (r: Ptr)
    ensures !r.At? && (r == Null <==> ptr == Null)
  {
    if ptr.At? then Dangling else ptr
  }

  /** `compute_offset(ptr, base)`: how far a pointer lies into the buffer at `base`, or -1 for a
      null pointer.  The prologue and the epilogue rebuild each pointer from it, as `Rebase`
      does; for a null pointer or one inside the buffer that gives back the same pointer, which
      is why `Resume` and `CarryOver` keep offsets as they are. */
  function ComputeOffset(ptr: Ptr): (off: int)
    requires !ptr.Dangling? && (ptr.At? ==> ptr.off >= 0)
    ensures off == -1 <==> ptr == Null
    ensures off >= -1 && Rebase(off) == ptr
  {
    if ptr.At? then ptr.off else -1
  }

  /** `(offset >= 0) ? base + offset : NULL`. */
  function Rebase(off: int): Ptr {
    if off >= 0 then At(off) else Null
  }

  /** What holds between two calls.  With no overflow buffer the scanner rests in 0 or the start
      state and holds no pointer into any buffer; with one, the overflow buffer is the text of
      the unfinished tag (and everything since the call that started it) and every pointer the
      state may read lies inside it. */
  predicate Resting(s: Scanner) {
    && 0 <= s.cs < STATE_COUNT
    && Buffers(s)
    && (s.mark == Null ==> s.cs == ESI_START)
    && (s.cs == 0 ==> s.echo == [] && s.prevState == 0 && s.overflow.None?)
    && match s.overflow
       case None =>
         && (s.cs == 0 || s.cs == ESI_START)
         && !s.mark.At? && !s.tagText.At? && !s.attrKey.At? && !s.attrValue.At?
       case Some(carried) => |carried| > 0 && Inv(s, |carried|)
  }

  /** The end of `esi_parser_execute` as it is intended: outside 0 and the start state the
      buffer just scanned is kept as the overflow buffer (the caller's chunk is copied when
      there was none, and the pointers keep their offsets); in 0 or the start state the overflow
      buffer is freed.  The source also overwrites `echobuffer_allocated` when it copies the
      chunk; that is modelled on its own, in `EchoCapacity`. */
  function CarryOver(s: Scanner, buf: seq<Byte>): (r: Scanner)
    ensures r.overflow.Some? <==> s.cs != ESI_START && s.cs != 0
    ensures r.overflow.Some? ==> r == s.(overflow := Some(buf))
    ensures r.overflow.None? ==> r == s.(overflow := None, mark := Release(s.mark), tagText := Release(s.tagText),
                                         attrKey := Release(s.attrKey), attrValue := Release(s.attrValue))
  {
    if s.cs != ESI_START && s.cs != 0 then
      s.(overflow := Some(buf))
    else
      s.(overflow := None, mark := Release(s.mark), tagText := Release(s.tagText),
         attrKey := Release(s.attrKey), attrValue := Release(s.attrValue))
  }

  /** The buffer a call scans: the overflow buffer with the chunk appended, or the chunk. */
  function ScanBuffer(s: Scanner, data: seq<Byte>): (buf: seq<Byte>)
    ensures s.overflow.Some? ==> |buf| == |s.overflow.value| + |data|
    ensures s.overflow.Some? ==> buf[..|s.overflow.value|] == s.overflow.value && buf[|s.overflow.value|..] == data
    ensures s.overflow.None? ==> buf == data
  {
    if s.overflow.Some? then s.overflow.value + data else data
  }

  /** The position the automaton starts at: just after the carried bytes. */
  function ScanStart(s: Scanner): nat {
    if s.overflow.Some? then |s.overflow.value| else 0
  }

  /** The prologue: the chunk is appended to the overflow buffer, whose pointers keep their
      offsets, and a null `mark` is set to the first new byte. */
  function Resume(s: Scanner, data: seq<Byte>): (r: Scanner)
    requires Resting(s) && |data| > 0
    ensures Inv(r, ScanStart(s)) && ScanStart(s) < |ScanBuffer(s, data)| && r.mark != Null
    ensures r.overflow == (if s.overflow.Some? then Some(ScanBuffer(s, data)) else None)
    ensures r == s.(overflow := r.overflow, mark := r.mark)
  {
    var s1 := s.(overflow := if s.overflow.Some? then Some(ScanBuffer(s, data)) else None);
    if s1.mark == Null then s1.(mark := At(ScanStart(s))) else s1
  }

  /** The automaton path of `esi_parser_execute`: prologue, loop, carry-over. */
  function Scan(s: Scanner, data: seq<Byte>): (r: Scanner)
    requires Resting(s) && |data| > 0
    ensures Resting(r)
  {
    var buf := ScanBuffer(s, data);
    CarryOver(Run(Resume(s, data), buf, ScanStart(s)), buf)
  }

  /** `esi_parser_execute(parser, data, length)`; it returns the new `cs`.  Nothing happens for
      an empty chunk.  In state 0 a chunk with no possible start sequence is echoed byte by byte
      without running the automaton.  After a fault there is nothing left to run. */
  function Execute(s: Scanner, data: seq<Byte>): (r: Scanner)
    requires Resting(s)
    ensures Resting(r)
    ensures |data| == 0 ==> r == s
    ensures s.cs == 0 && !s.fault && ScanForStart(data) == -1 ==>
              r.cs == 0 && Emitted(r.sink) == Emitted(s.sink) + data && r == s.(sink := r.sink)
  {
    if |data| == 0 || s.fault then s
    else if s.cs == 0 && ScanForStart(data) == -1 then s.(sink := EchoAll(s.sink, data))
    else Scan(s, data)
  }

  /** `esi_parser_finish`: the output buffer is flushed; the echo buffer and the overflow
      buffer are not. */
  function Finish(s: Scanner): (r: Scanner)
    ensures Emitted(r.sink) == Emitted(s.sink) && r.sink.buffer == []
    ensures r == s.(sink := r.sink)
  {
    s.(sink := FlushOutput(s.sink))
  }

  /** The state `esi_parser_new` leaves: the start state, no pointers, an empty echo buffer of
      `OUTPUT_BUFFER_SIZE` bytes, an empty output buffer, no attributes.  `prev_state` and the
      three lengths are not initialised; `prevState` stands for whatever they hold. */
  function New(prevState: int, garbage: int): (r: Scanner)
    ensures Resting(r) && r.cs == ESI_START && r.mark == Null && Emitted(r.sink) == []
  {
    Scanner(ESI_START, prevState, Null, Null, garbage, Null, garbage, Null, garbage,
            [], OUTPUT_BUFFER_SIZE, Sink([], []), None, [], false)
  }

  /** `esi_parser_init`: both `cs` and `prev_state` become the start state. */
  function Init(s: Scanner): (r: Scanner)
    requires Resting(s)
    ensures Resting(r) && r.cs == ESI_START && r.prevState == ESI_START
  {
    s.(cs := ESI_START, prevState := ESI_START)
  }

  /** `esi_parser_scan_for_start` from position `i`: `f` is the position of the `<` of a
      possible start sequence and `s` that of its last byte, both -2 when there is none. */
  function ScanFrom(data: seq<Byte>, i: int, f: int, s: int): (r: int)
    requires 0 <= i <= |data|
    ensures r == -1 || (r == f && f != -2) || (i <= r < |data| && data[r] == LT)
    decreases |data| - i
  {
    if i == |data| then (if f != -2 && s != -2 then f else -1)
    else if data[i] == LT then ScanFrom(data, i + 1, i, i)
    else if IsPrefixByte(data[i]) then ScanFrom(data, i + 1, f, if s == i - 1 && f != -2 then i else s)
    else if data[i] == COLON then (if s == i - 1 && f != -2 then f else ScanFrom(data, i + 1, f, s))
    else ScanFrom(data, i + 1, -2, -2)
  }

  /** `esi_parser_scan_for_start(parser, data, length)`. */
  function ScanForStart(data: seq<Byte>): (r: int)
    ensures r == -1 || (0 <= r < |data| && data[r] == LT)
  {
    ScanFrom(data, 0, -2, -2)
  }
}
