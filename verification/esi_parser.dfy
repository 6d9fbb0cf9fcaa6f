/** `ESIParser` of the nginx revision as the object the source allocates and updates in place.
    The echo buffer and the output buffer are arrays (the echo buffer is replaced by a larger one
    when it grows, as `realloc` may do); the overflow buffer, the attribute list and the calls
    made to the three handlers are fields the methods reassign.  Each method is proved to leave
    the object in the state the corresponding function of `EsiScan` computes, so every property
    proved of those functions holds of the object. */
module NgxEsiParser {
  import opened Bytes
  import opened Trim
  import opened Attributes
  import opened EsiMachine
  import opened EsiScan

  class EsiParser {
    var cs: int
    var prevState: int
    var mark: Ptr
    var tagText: Ptr
    var tagTextLength: int
    var attrKey: Ptr
    var attrKeyLength: int
    var attrValue: Ptr
    var attrValueLength: int
    /** Staged bytes are `echobuffer[0..echobufferIndex]`; an index of -1 (the source's
        `(size_t)-1`) means nothing is staged. */
    var echobuffer: array<Byte>
    var echobufferIndex: int
    var echobufferAllocated: int
    var outputBuffer: array<Byte>
    var outputBufferSize: int
    /** The calls made to the output, start tag and end tag handlers, in order. */
    var calls: seq<Call>
    var overflowData: Option<seq<Byte>>
    var attributes: seq<Attribute>
    /** Set when the source would have read through a null `tag_text`. */
    var fault: bool

    /** The shape of the two arrays: the echo buffer is as large as recorded and holds the
        staged bytes, the output buffer has its fixed size and is not over-full. */
    predicate Shaped()
      reads this
    {
      && echobuffer != outputBuffer
      && outputBuffer.Length == OUTPUT_BUFFER_SIZE && 0 <= outputBufferSize <= OUTPUT_BUFFER_SIZE
      && echobuffer.Length == echobufferAllocated && 1 <= echobufferAllocated
      && -1 <= echobufferIndex < echobufferAllocated
    }

    /** The parser's fields as the value the functions of `EsiScan` work on. */
    function Model(): Scanner
      requires Shaped()
      reads this, echobuffer, outputBuffer
    {
      Scanner(cs, prevState, mark, tagText, tagTextLength, attrKey, attrKeyLength, attrValue, attrValueLength,
              echobuffer[..echobufferIndex + 1], echobufferAllocated,
              Sink(outputBuffer[..outputBufferSize], calls), overflowData, attributes, fault)
    }

    /** What holds between two calls of the public operations. */
    predicate Valid()
      reads this, echobuffer, outputBuffer
    {
      Shaped() && Resting(Model())
    }

    /** `esi_parser_new`: `prev_state` and the three lengths are left uninitialised by the
        source; the parameters stand for whatever they hold. */
    constructor (prevState: int, garbage: int)
      ensures Valid() && Model() == New(prevState, garbage)
      ensures fresh(echobuffer) && fresh(outputBuffer)
    {
      cs := ESI_START;
      this.prevState := prevState;
      mark, tagText, attrKey, attrValue := Null, Null, Null, Null;
      tagTextLength, attrKeyLength, attrValueLength := garbage, garbage, garbage;
      overflowData := None;
      echobufferAllocated := OUTPUT_BUFFER_SIZE;
      echobufferIndex := -1;
      echobuffer := new Byte[OUTPUT_BUFFER_SIZE];
      attributes := [];
      calls := [];
      outputBufferSize := 0;
      outputBuffer := new Byte[OUTPUT_BUFFER_SIZE](_ => 0);
      fault := false;
    }

    /** `esi_parser_init`. */
    method Init() returns (r: int)
      requires Valid()
      modifies this
      ensures Valid() && Model() == EsiScan.Init(old(Model())) && r == 0
      ensures echobuffer == old(echobuffer) && outputBuffer == old(outputBuffer)
    {
      cs := ESI_START;
      prevState := cs;
      r := 0;
    }

    /** `esi_parser_flush_output`. */
    method FlushOutput()
      requires Shaped()
      modifies this
      ensures Shaped() && Model() == old(Model()).(sink := EsiScan.FlushOutput(old(Model()).sink))
      ensures echobuffer == old(echobuffer) && outputBuffer == old(outputBuffer)
    {
      if outputBufferSize > 0 {
        calls := calls + [OutputCall(outputBuffer[..outputBufferSize])];
        outputBufferSize := 0;
      }
    }

    /** `esi_parser_echo_char`. */
    method EchoChar(ch: Byte)
      requires Shaped() && outputBufferSize < OUTPUT_BUFFER_SIZE
      modifies this, outputBuffer
      ensures Shaped() && Model() == old(Model()).(sink := EsiScan.EchoChar(old(Model()).sink, ch))
      ensures echobuffer == old(echobuffer) && outputBuffer == old(outputBuffer)
    {
      outputBuffer[outputBufferSize] := ch;
      outputBufferSize := outputBufferSize + 1;
      assert outputBuffer[..outputBufferSize] == old(outputBuffer[..outputBufferSize]) + [ch];
      if outputBufferSize == OUTPUT_BUFFER_SIZE {
        FlushOutput();
      }
    }

    /** `esi_parser_echo_buffer`: every staged byte, in order, through `esi_parser_echo_char`. */
    method EchoBuffer()
      requires Shaped() && outputBufferSize < OUTPUT_BUFFER_SIZE
      modifies this, outputBuffer
      ensures Shaped() && Model() == old(Model()).(sink := EchoAll(old(Model()).sink, old(Model()).echo))
      ensures echobuffer == old(echobuffer) && outputBuffer == old(outputBuffer)
    {
      ghost var s := Model();
      var i, len := 0, echobufferIndex + 1;
      while i < len
        invariant Shaped() && 0 <= i <= len && len == |s.echo|
        invariant echobuffer == old(echobuffer) && outputBuffer == old(outputBuffer)
        invariant Model() == s.(sink := EchoAll(s.sink, s.echo[..i]))
      {
        EchoStaged(i, s);
        i := i + 1;
      }
      assert s.echo[..i] == s.echo;
    }

    /** One byte of `EchoBuffer`, after the first `i` staged bytes have gone out. */
    method EchoStaged(i: int, ghost s: Scanner)
      requires Shaped() && 0 <= i < |s.echo| && |s.sink.buffer| < OUTPUT_BUFFER_SIZE
      requires Model() == s.(sink := EchoAll(s.sink, s.echo[..i]))
      modifies this, outputBuffer
      ensures Shaped() && Model() == s.(sink := EchoAll(s.sink, s.echo[..i + 1]))
      ensures echobuffer == old(echobuffer) && outputBuffer == old(outputBuffer)
    {
      assert echobuffer[i] == s.echo[i];
      EchoAt(s.echo, i, echobuffer[i], s);
    }

    /** `esi_parser_concat_to_echobuffer`: the index moves on, the buffer is replaced by one
        twice as large when the index has reached its size, and the byte is written. */
    method ConcatToEchobuffer(ch: Byte)
      requires Shaped() && outputBufferSize < OUTPUT_BUFFER_SIZE
      modifies this, echobuffer
      ensures Shaped() && Model() == EsiScan.ConcatToEchobuffer(old(Model()), ch)
      ensures (echobuffer == old(echobuffer) || fresh(echobuffer)) && outputBuffer == old(outputBuffer)
    {
      if echobufferAllocated <= echobufferIndex + 1 {
        Grow();
      }
      assert echobufferIndex + 1 < echobuffer.Length;
      echobufferIndex := echobufferIndex + 1;
      echobuffer[echobufferIndex] := ch;
      assert echobuffer[..echobufferIndex + 1] == old(echobuffer[..echobufferIndex + 1]) + [ch];
    }

    /** The `realloc` of the echo buffer to twice its size, keeping its contents. */
    method Grow()
      requires Shaped()
      modifies this
      ensures Shaped() && fresh(echobuffer) && echobufferAllocated == 2 * old(echobufferAllocated)
      ensures echobufferIndex == old(echobufferIndex)
      ensures Model() == old(Model()).(echoAllocated := echobufferAllocated) && outputBuffer == old(outputBuffer)
    {
      var grown := new Byte[2 * echobufferAllocated];
      forall i | 0 <= i < echobuffer.Length {
        grown[i] := echobuffer[i];
      }
      assert grown[..echobufferIndex + 1] == echobuffer[..echobufferIndex + 1];
      echobufferAllocated := 2 * echobufferAllocated;
      echobuffer := grown;
    }

    /** The step the source runs at the head of every action, once `cs` holds the new state:
        in state 0 the staged bytes and the current byte go out unless the previous state was
        12 or 7, and the stage is cleared; otherwise the byte is staged. */
    method EchoStep(target: int, ch: Byte)
      requires Shaped() && Buffers(Model())
      modifies this, echobuffer, outputBuffer
      ensures Shaped() && Model() == EsiScan.EchoStep(old(Model()), target, ch)
      ensures (echobuffer == old(echobuffer) || fresh(echobuffer)) && outputBuffer == old(outputBuffer)
    {
      if target == 0 {
        NoMatch(ch);
      } else {
        cs := target;
        ConcatToEchobuffer(ch);
        prevState := cs;
      }
    }

    /** The state-0 branch of `EchoStep`. */
    method NoMatch(ch: Byte)
      requires Shaped() && Buffers(Model())
      modifies this, outputBuffer
      ensures Shaped() && Model() == EsiScan.EchoStep(old(Model()), 0, ch)
      ensures echobuffer == old(echobuffer) && outputBuffer == old(outputBuffer)
    {
      if prevState != 12 && prevState != 7 {
        LetThrough(ch);
      }
      cs, echobufferIndex, prevState := 0, -1, 0;
    }

    /** The staged bytes, if any, and then the current byte go to the output buffer. */
    method LetThrough(ch: Byte)
      requires Shaped() && outputBufferSize < OUTPUT_BUFFER_SIZE
      modifies this, outputBuffer
      ensures Shaped() && echobuffer == old(echobuffer) && outputBuffer == old(outputBuffer)
      ensures var s := old(Model());
              Model() == s.(sink := EsiScan.EchoChar(if |s.echo| > 0 then EchoAll(s.sink, s.echo) else s.sink, ch))
    {
      if echobufferIndex != -1 {
        EchoBuffer();
      }
      EchoChar(ch);
    }

    /** A handler call as the actions make it: the output buffer is flushed before and after. */
    method Deliver(c: Call)
      requires Shaped() && !c.OutputCall?
      modifies this
      ensures Shaped() && Model() == old(Model()).(sink := Handed(old(Model()).sink, c))
      ensures echobuffer == old(echobuffer) && outputBuffer == old(outputBuffer)
    {
      FlushOutput();
      calls := calls + [c];
      FlushOutput();
    }

    /** The end of every action that completes a tag: the handler call, then `tag_text` as
        given, `mark` at the current byte, the attribute list as given and the echo buffer
        cleared. */
    method CompleteTag(c: Call, tag: Ptr, tagLength: int, attrs: seq<Attribute>, p: int)
      requires Shaped() && !c.OutputCall?
      modifies this
      ensures Shaped()
      ensures Model() == old(Model()).(sink := Handed(old(Model()).sink, c), tagText := tag, tagTextLength := tagLength,
                                       mark := At(p), attributes := attrs, echo := [])
      ensures echobuffer == old(echobuffer) && outputBuffer == old(outputBuffer)
    {
      Deliver(c);
      SetTagText(tag, tagLength, p);
      attributes, echobufferIndex := attrs, -1;
    }

    /** `tag_text`, `tag_text_length` and `mark` as an action leaves them. */
    method SetTagText(tag: Ptr, tagLength: int, p: int)
      requires Shaped()
      modifies this
      ensures Shaped() && echobuffer == old(echobuffer) && outputBuffer == old(outputBuffer)
      ensures Model() == old(Model()).(tagText := tag, tagTextLength := tagLength, mark := At(p))
    {
      tagText, tagTextLength, mark := tag, tagLength, At(p);
    }

    /** The end of `f6` and `f7`: a captured span and `mark` at the current byte. */
    method CaptureKey(start: int, len: int, p: int)
      requires Shaped()
      modifies this
      ensures Shaped() && Model() == old(Model()).(attrKey := At(start), attrKeyLength := len, mark := At(p))
      ensures echobuffer == old(echobuffer) && outputBuffer == old(outputBuffer)
    {
      attrKey, attrKeyLength, mark := At(start), len, At(p);
    }

    /** The end of `f7`: the value's span, `mark` at the current byte and the attribute appended. */
    method CaptureValue(start: int, len: int, p: int, attr: Attribute)
      requires Shaped()
      modifies this
      ensures Shaped()
      ensures Model() == old(Model()).(attrValue := At(start), attrValueLength := len, mark := At(p),
                                       attributes := old(attributes) + [attr])
      ensures echobuffer == old(echobuffer) && outputBuffer == old(outputBuffer)
    {
      attrValue, attrValueLength, mark, attributes := At(start), len, At(p), attributes + [attr];
    }

    /** `f2`. */
    method EndTag(buf: seq<Byte>, p: int)
      requires Shaped() && Ready(Model(), Action.EndTag, buf, p)
      modifies this
      ensures Shaped() && Model() == EndTagAction(old(Model()), buf, p)
      ensures echobuffer == old(echobuffer) && outputBuffer == old(outputBuffer)
    {
      ghost var s := Model();
      var start, len := TrimSpan(buf, mark.off + 2, p - (mark.off + 2), p);
      CompleteTag(EndTagCall(Text(buf, Span(start, len))), At(start), len, attributes, p);
      EndTagResult(s, buf, p, start, len);
    }

    /** `f3`. */
    method TagName(buf: seq<Byte>, p: int)
      requires Shaped() && Ready(Model(), Action.TagName, buf, p)
      modifies this
      ensures Shaped() && Model() == TagNameAction(old(Model()), buf, p)
      ensures echobuffer == old(echobuffer) && outputBuffer == old(outputBuffer)
    {
      SetTagText(At(mark.off + 1), p - (mark.off + 1), p);
    }

    /** `f4`. */
    method StartTagNoAttrs(buf: seq<Byte>, p: int)
      requires Shaped() && Ready(Model(), Action.StartTagNoAttrs, buf, p)
      modifies this
      ensures Shaped() && Model() == StartTagNoAttrsAction(old(Model()), buf, p)
      ensures echobuffer == old(echobuffer) && outputBuffer == old(outputBuffer)
    {
      ghost var s := Model();
      var start, len := TrimSpan(buf, mark.off, p - mark.off, p);
      CompleteTag(StartTagCall(Text(buf, Span(start, len)), []), At(start), len, [], p);
      StartTagNoAttrsResult(s, buf, p, start, len);
    }

    /** `f5`; with a null `tag_text` the source reads through it. */
    method StartTag(buf: seq<Byte>, p: int)
      requires Shaped() && Ready(Model(), Action.StartTag, buf, p)
      modifies this
      ensures Shaped() && Model() == StartTagAction(old(Model()), buf, p)
      ensures echobuffer == old(echobuffer) && outputBuffer == old(outputBuffer)
    {
      if tagText == Null {
        fault := true;
        return;
      }
      ghost var s := Model();
      var start, len := TrimSpan(buf, tagText.off, tagTextLength, p);
      CompleteTag(StartTagCall(Text(buf, Span(start, len)), attributes), Null, 0, [], p);
      StartTagResult(s, buf, p, start, len);
    }

    /** `f6`. */
    method AttrKey(buf: seq<Byte>, p: int)
      requires Shaped() && Ready(Model(), Action.AttrKey, buf, p)
      modifies this
      ensures Shaped() && Model() == AttrKeyAction(old(Model()), buf, p)
      ensures echobuffer == old(echobuffer) && outputBuffer == old(outputBuffer)
    {
      var start, len := TrimSpan(buf, mark.off, p - mark.off, p);
      CaptureKey(start, len, p);
    }

    /** `f7` and `f11`. */
    method AttrValue(buf: seq<Byte>, p: int)
      requires Shaped() && Ready(Model(), Action.AttrValue, buf, p)
      modifies this
      ensures Shaped() && Model() == AttrValueAction(old(Model()), buf, p)
      ensures echobuffer == old(echobuffer) && outputBuffer == old(outputBuffer)
    {
      ghost var s := Model();
      var start, len := TrimSpan(buf, mark.off, p - mark.off, p);
      var key := Text(buf, Span(attrKey.off, attrKeyLength));
      CaptureValue(start, len, p, AttributeNew(key, attrKeyLength, Text(buf, Span(start, len)), len));
      AttrValueResult(s, buf, p, start, len);
    }

    /** `f8`; with a null `tag_text` the source reads through it.  The end tag call is made
        through `CompleteTag`, whose first flush finds the output buffer already empty. */
    method EmptyTag(buf: seq<Byte>, p: int)
      requires Shaped() && Ready(Model(), Action.EmptyTag, buf, p)
      modifies this
      ensures Shaped() && Model() == EmptyTagAction(old(Model()), buf, p)
      ensures echobuffer == old(echobuffer) && outputBuffer == old(outputBuffer)
    {
      if tagText == Null {
        fault := true;
        return;
      }
      ghost var s := Model();
      var start, len := TrimSpan(buf, tagText.off, tagTextLength, p);
      Deliver(StartTagCall(Text(buf, Span(start, len)), attributes));
      CompleteTag(EndTagCall(Text(buf, Span(start, len))), Null, 0, [], p);
      EmptyTagResult(s, buf, p, start, len);
    }

    /** The action of a transition, after the common step. */
    method ApplyAction(a: Action, buf: seq<Byte>, p: int)
      requires Shaped() && Ready(Model(), a, buf, p)
      modifies this
      ensures Shaped() && Model() == EsiScan.ApplyAction(old(Model()), a, buf, p)
      ensures echobuffer == old(echobuffer) && outputBuffer == old(outputBuffer)
    {
      match a
      case Echo =>
      case EchoMark => mark := At(p);
      case EndTag => EndTag(buf, p);
      case TagName => TagName(buf, p);
      case StartTagNoAttrs => StartTagNoAttrs(buf, p);
      case StartTag => StartTag(buf, p);
      case AttrKey => AttrKey(buf, p);
      case AttrValue => AttrValue(buf, p);
      case EmptyTag => EmptyTag(buf, p);
    }

    /** One pass through the generated `switch ( cs )`: the transition for the byte at `p`,
        the common step, the transition's action. */
    method ExecuteByte(buf: seq<Byte>, p: int)
      requires Shaped() && Inv(Model(), p) && p < |buf| && !fault
      modifies this, echobuffer, outputBuffer
      ensures Shaped() && Model() == Step(old(Model()), buf, p)
      ensures (echobuffer == old(echobuffer) || fresh(echobuffer)) && outputBuffer == old(outputBuffer)
    {
      ghost var s := Model();
      var m := Transition(cs, buf[p]);
      EchoStep(m.target, buf[p]);
      ActionKeepsInv(s, Model(), m, buf, p);
      ApplyAction(m.action, buf, p);
    }

    /** `esi_parser_scan_for_start`; it changes nothing. */
    method ScanForStart(data: seq<Byte>) returns (r: int)
      ensures r == EsiScan.ScanForStart(data)
    {
      var i, f, s := 0, -2, -2;
      while i < |data|
        invariant 0 <= i <= |data|
        invariant ScanFrom(data, i, f, s) == EsiScan.ScanForStart(data)
      {
        var ch := data[i];
        if ch == LT {
          f, s := i, i;
        } else if ch == SLASH || ch == LOWER_E || ch == LOWER_S || ch == LOWER_I {
          if s == i - 1 && f != -2 {
            s := i;
          }
        } else if ch == COLON {
          if s == i - 1 && f != -2 {
            return f;
          }
        } else {
          f, s := -2, -2;
        }
        i := i + 1;
      }
      if f != -2 && s != -2 {
        return f;
      }
      return -1;
    }

    /** The prescan's bypass: every byte of the chunk through `esi_parser_echo_char`. */
    method EchoChunk(data: seq<Byte>)
      requires Shaped() && outputBufferSize < OUTPUT_BUFFER_SIZE
      modifies this, outputBuffer
      ensures Shaped() && Model() == old(Model()).(sink := EchoAll(old(Model()).sink, data))
      ensures echobuffer == old(echobuffer) && outputBuffer == old(outputBuffer)
    {
      ghost var s := Model();
      var pindex := 0;
      while pindex < |data|
        invariant Shaped() && 0 <= pindex <= |data|
        invariant echobuffer == old(echobuffer) && outputBuffer == old(outputBuffer)
        invariant Model() == s.(sink := EchoAll(s.sink, data[..pindex]))
      {
        EchoAt(data, pindex, data[pindex], s);
        pindex := pindex + 1;
      }
      assert data[..pindex] == data;
    }

    /** One byte of `EchoChunk`, after the first `i` have gone out. */
    method EchoAt(ghost data: seq<Byte>, i: int, ch: Byte, ghost s: Scanner)
      requires Shaped() && 0 <= i < |data| && data[i] == ch && |s.sink.buffer| < OUTPUT_BUFFER_SIZE
      requires Model() == s.(sink := EchoAll(s.sink, data[..i]))
      modifies this, outputBuffer
      ensures Shaped() && Model() == s.(sink := EchoAll(s.sink, data[..i + 1]))
      ensures echobuffer == old(echobuffer) && outputBuffer == old(outputBuffer)
    {
      assert data[..i + 1][..i] == data[..i];
      EchoChar(ch);
    }

    /** The prologue of the automaton path: the chunk is appended to a non-empty overflow
        buffer, and a null `mark` is set to the first new byte.  Pointers are offsets from the
        start of the buffer being scanned, so the offsets `compute_offset` takes and re-bases
        onto the grown buffer are the offsets the pointers already hold. */
    method Prologue(data: seq<Byte>) returns (buf: seq<Byte>, start: int)
      requires Valid() && |data| > 0
      modifies this
      ensures Shaped() && Model() == Resume(old(Model()), data)
      ensures buf == ScanBuffer(old(Model()), data) && start == ScanStart(old(Model()))
      ensures echobuffer == old(echobuffer) && outputBuffer == old(outputBuffer)
    {
      buf, start := data, 0;
      if overflowData.Some? && |overflowData.value| > 0 {
        start := |overflowData.value|;
        buf := overflowData.value + data;
        overflowData := Some(buf);
      }
      if mark == Null {
        mark := At(start);
      }
    }

    /** The generated loop, from `start` to the end of the buffer or the first fault. */
    method RunLoop(buf: seq<Byte>, start: int)
      requires Shaped() && Inv(Model(), start) && start <= |buf|
      modifies this, echobuffer, outputBuffer
      ensures Shaped() && Model() == Run(old(Model()), buf, start) && overflowData == old(overflowData)
      ensures (echobuffer == old(echobuffer) || fresh(echobuffer)) && outputBuffer == old(outputBuffer)
    {
      ghost var trace := [Model()];
      var p := start;
      while p < |buf| && !fault
        invariant Shaped() && start <= p <= |buf| && Inv(Model(), p)
        invariant |trace| == p - start + 1 && trace[0] == old(Model()) && trace[p - start] == Model()
        invariant Chain(trace, buf, start) && overflowData == old(overflowData)
        invariant (echobuffer == old(echobuffer) || fresh(echobuffer)) && outputBuffer == old(outputBuffer)
        decreases |buf| - p
      {
        trace := Advance(buf, start, p, trace);
        p := p + 1;
      }
      ChainRun(trace, buf, start, p, Model());
      RunStops(Model(), buf, p);
    }

    /** One turn of the generated loop, extending the trace of the states it has passed through. */
    method Advance(buf: seq<Byte>, start: int, p: int, ghost trace: seq<Scanner>) returns (ghost trace': seq<Scanner>)
      requires Shaped() && start <= p < |buf| && Inv(Model(), p) && !fault
      requires |trace| == p - start + 1 && trace[p - start] == Model() && Chain(trace, buf, start)
      modifies this, echobuffer, outputBuffer
      ensures Shaped() && Inv(Model(), p + 1) && overflowData == old(overflowData)
      ensures trace' == trace + [Model()] && Chain(trace', buf, start)
      ensures (echobuffer == old(echobuffer) || fresh(echobuffer)) && outputBuffer == old(outputBuffer)
    {
      ghost var before := Model();
      ExecuteByte(buf, p);
      ChainSnoc(trace, buf, start, p, before, Model());
      StepKeepsOverflow(before, buf, p);
      trace' := trace + [Model()];
    }

    /** The epilogue: outside 0 and the start state the scanned buffer is kept (the caller's
        chunk is copied when there was no overflow buffer); in 0 or the start state the
        overflow buffer is freed, and the pointers into it or into the caller's chunk dangle. */
    method Epilogue(buf: seq<Byte>)
      requires Shaped() && (overflowData.Some? ==> overflowData == Some(buf))
      modifies this
      ensures Shaped() && Model() == CarryOver(old(Model()), buf)
      ensures echobuffer == old(echobuffer) && outputBuffer == old(outputBuffer)
    {
      if cs != ESI_START && cs != 0 {
        if overflowData.None? {
          overflowData := Some(buf);
        }
      } else {
        overflowData := None;
        Dangle();
      }
    }

    /** The four pointers once the buffer they point into is freed or handed back. */
    method Dangle()
      requires Shaped()
      modifies this
      ensures Shaped() && echobuffer == old(echobuffer) && outputBuffer == old(outputBuffer)
      ensures Model() == old(Model()).(mark := Release(old(mark)), tagText := Release(old(tagText)),
                                       attrKey := Release(old(attrKey)), attrValue := Release(old(attrValue)))
    {
      mark, tagText, attrKey, attrValue := Release(mark), Release(tagText), Release(attrKey), Release(attrValue);
    }

    /** The automaton path of `esi_parser_execute`: prologue, generated loop, epilogue. */
    method ScanChunk(data: seq<Byte>)
      requires Valid() && |data| > 0
      modifies this, echobuffer, outputBuffer
      ensures Shaped() && Model() == Scan(old(Model()), data)
      ensures (echobuffer == old(echobuffer) || fresh(echobuffer)) && outputBuffer == old(outputBuffer)
    {
      var buf, start := Prologue(data);
      RunLoop(buf, start);
      Epilogue(buf);
    }

    /** `esi_parser_execute(parser, data, length)`; it returns the new `cs`. */
    method Execute(data: seq<Byte>) returns (r: int)
      requires Valid()
      modifies this, echobuffer, outputBuffer
      ensures Valid() && Model() == EsiScan.Execute(old(Model()), data) && r == cs
      ensures (echobuffer == old(echobuffer) || fresh(echobuffer)) && outputBuffer == old(outputBuffer)
    {
      if |data| == 0 || fault {
        return cs;
      }
      if cs == 0 {
        var pindex := ScanForStart(data);
        if pindex == -1 {
          EchoChunk(data);
          return cs;
        }
      }
      ScanChunk(data);
      r := cs;
    }

    /** `esi_parser_finish`. */
    method Finish() returns (r: int)
      requires Valid()
      modifies this
      ensures Valid() && Model() == EsiScan.Finish(old(Model())) && r == 0
      ensures echobuffer == old(echobuffer) && outputBuffer == old(outputBuffer)
    {
      FlushOutput();
      r := 0;
    }
  }

  /** The state at index `i` of `t`, at position `p + i`, is followed by its `Step`. */
  ghost predicate Linked(t: seq<Scanner>, buf: seq<Byte>, p: int, i: int)
    requires 0 <= i < |t| - 1
  {
    Inv(t[i], p + i) && p + i < |buf| && !t[i].fault && t[i + 1] == Step(t[i], buf, p + i)
  }

  /** `t` holds the states the generated loop passes through from position `p`. */
  ghost predicate Chain(t: seq<Scanner>, buf: seq<Byte>, p: int) {
    forall i :: 0 <= i < |t| - 1 ==> Linked(t, buf, p, i)
  }

  /** A chain grows by the `Step` of its last state, `last` at `q`. */
  lemma ChainSnoc(t: seq<Scanner>, buf: seq<Byte>, p: int, q: int, last: Scanner, x: Scanner)
    requires |t| >= 1 && Chain(t, buf, p) && q == p + |t| - 1 && last == t[|t| - 1]
    requires Inv(last, q) && q < |buf| && !last.fault && x == Step(last, buf, q)
    ensures Chain(t + [x], buf, p)
  {
    var t' := t + [x];
    forall i | 0 <= i < |t'| - 1
      ensures Linked(t', buf, p, i)
    {
      assert t'[i] == t[i];
      if i < |t| - 1 {
        assert Linked(t, buf, p, i);
        assert t'[i + 1] == t[i + 1];
      }
    }
  }

  /** A chain without its first state is a chain from the next position. */
  lemma ChainTail(t: seq<Scanner>, buf: seq<Byte>, p: int, q: int)
    requires |t| >= 1 && Chain(t, buf, p) && q == p + 1
    ensures Chain(t[1..], buf, q)
  {
    forall i | 0 <= i < |t| - 2
      ensures Linked(t[1..], buf, q, i)
    {
      assert Linked(t, buf, p, i + 1);
    }
  }

  /** Running from the first state of a chain is running from its last, `last` at `q`. */
  lemma {:induction false} ChainRun(t: seq<Scanner>, buf: seq<Byte>, p: int, q: int, last: Scanner)
    requires |t| >= 1 && Inv(t[0], p) && Chain(t, buf, p)
    requires q == p + |t| - 1 && last == t[|t| - 1] && Inv(last, q) && q <= |buf|
    ensures Run(t[0], buf, p) == Run(last, buf, q)
    decreases |t|
  {
    if |t| == 1 {
      assert last == t[0] && q == p;
    } else {
      assert Linked(t, buf, p, 0);
      ChainTail(t, buf, p, p + 1);
      var t' := t[1..];
      assert t'[0] == t[1] && t'[|t'| - 1] == last;
      ChainRun(t', buf, p + 1, q, last);
      RunShift(t[0], t[1], last, buf, p, q);
    }
  }

  /** A run from a state is a run from its `Step`. */
  lemma RunShift(a: Scanner, b: Scanner, c: Scanner, buf: seq<Byte>, p: int, q: int)
    requires Inv(a, p) && p < |buf| && !a.fault && b == Step(a, buf, p)
    requires Inv(c, q) && q <= |buf| && Run(b, buf, p + 1) == Run(c, buf, q)
    ensures Run(a, buf, p) == Run(c, buf, q)
  {
    RunUnfold(a, buf, p);
  }

  /** The state `f2` leaves, in the terms `EsiParser.EndTag` builds it. */
  lemma EndTagResult(s: Scanner, buf: seq<Byte>, p: int, start: int, len: int)
    requires Ready(s, Action.EndTag, buf, p)
    requires Span(start, len) == Trimmed(buf, Span(s.mark.off + 2, p - (s.mark.off + 2)), p)
    ensures EndTagAction(s, buf, p) == s.(mark := At(p), tagText := At(start), tagTextLength := len,
                                          sink := Handed(s.sink, EndTagCall(Text(buf, Span(start, len)))), echo := [])
  {
  }

  /** The state `f4` leaves, in the terms `EsiParser.StartTagNoAttrs` builds it. */
  lemma StartTagNoAttrsResult(s: Scanner, buf: seq<Byte>, p: int, start: int, len: int)
    requires Ready(s, Action.StartTagNoAttrs, buf, p)
    requires Span(start, len) == Trimmed(buf, Span(s.mark.off, p - s.mark.off), p)
    ensures StartTagNoAttrsAction(s, buf, p)
              == s.(tagText := At(start), tagTextLength := len, mark := At(p),
                    sink := Handed(s.sink, StartTagCall(Text(buf, Span(start, len)), [])), attributes := [], echo := [])
  {
  }

  /** The state `f5` leaves when `tag_text` is set, in the terms `EsiParser.StartTag` builds it. */
  lemma StartTagResult(s: Scanner, buf: seq<Byte>, p: int, start: int, len: int)
    requires Ready(s, Action.StartTag, buf, p) && s.tagText.At?
    requires Span(start, len) == Trimmed(buf, Span(s.tagText.off, s.tagTextLength), p)
    ensures StartTagAction(s, buf, p)
              == s.(tagText := Null, tagTextLength := 0, mark := At(p), attributes := [], echo := [],
                    sink := Handed(s.sink, StartTagCall(Text(buf, Span(start, len)), s.attributes)))
  {
  }

  /** The state `f7` leaves, in the terms `EsiParser.AttrValue` builds it. */
  lemma AttrValueResult(s: Scanner, buf: seq<Byte>, p: int, start: int, len: int)
    requires Ready(s, Action.AttrValue, buf, p)
    requires Span(start, len) == Trimmed(buf, Span(s.mark.off, p - s.mark.off), p)
    ensures var key := Text(buf, Span(s.attrKey.off, s.attrKeyLength));
            AttrValueAction(s, buf, p)
              == s.(attrValue := At(start), attrValueLength := len, mark := At(p),
                    attributes := s.attributes + [AttributeNew(key, s.attrKeyLength, Text(buf, Span(start, len)), len)])
  {
  }

  /** The state `f8` leaves when `tag_text` is set, in the terms `EsiParser.EmptyTag` builds it:
      the end tag call follows the start tag call's flush, which leaves nothing to flush. */
  lemma EmptyTagResult(s: Scanner, buf: seq<Byte>, p: int, start: int, len: int)
    requires Ready(s, Action.EmptyTag, buf, p) && s.tagText.At?
    requires Span(start, len) == Trimmed(buf, Span(s.tagText.off, s.tagTextLength), p)
    ensures var name := Text(buf, Span(start, len));
            EmptyTagAction(s, buf, p)
              == s.(tagText := Null, tagTextLength := 0, mark := At(p), attributes := [], echo := [],
                    sink := Handed(Handed(s.sink, StartTagCall(name, s.attributes)), EndTagCall(name)))
  {
  }
}
