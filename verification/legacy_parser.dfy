/** `ESIParser` of the earlier revision as the object the source allocates and updates in place.
    The echo buffer is an array, replaced by one twice as large when it grows, as `realloc` may
    do; the overflow buffer, the attribute list and the calls made to the three handlers are
    fields the methods reassign.  Each method is proved to leave the object in the state the
    corresponding function of `LegacyScan` computes, so every property proved of those
    functions holds of the object. */
module LegacyParser {
  import opened Bytes
  import opened Trim
  import opened Attributes
  import opened EsiMachine
  import EsiScan
  import opened LegacyScan

  class Parser {
    var cs: int
    var prevState: int
    var mark: EsiScan.Ptr
    var tagText: EsiScan.Ptr
    var tagTextLength: int
    var attrKey: EsiScan.Ptr
    var attrKeyLength: int
    var attrValue: EsiScan.Ptr
    var attrValueLength: int
    /** Staged bytes are `echobuffer[0..echobufferIndex]`; an index of -1 (the source's
        `(size_t)-1`) means nothing is staged. */
    var echobuffer: array<Byte>
    var echobufferIndex: int
    var echobufferAllocated: int
    /** The calls made to the output, start tag and end tag handlers, in order. */
    var calls: seq<EsiScan.Call>
    var overflowData: Option<seq<Byte>>
    var attributes: seq<Attribute>
    /** Set when the source would have read memory it does not own. */
    var fault: bool

    /** The echo buffer is as large as recorded and holds the staged bytes. */
    predicate Shaped()
      reads this
    {
      echobuffer.Length == echobufferAllocated && 1 <= echobufferAllocated && -1 <= echobufferIndex < echobufferAllocated
    }

    /** The parser's fields as the value the functions of `LegacyScan` work on. */
    function Model(): Legacy
      requires Shaped()
      reads this, echobuffer
    {
      Legacy(cs, prevState, mark, tagText, tagTextLength, attrKey, attrKeyLength, attrValue, attrValueLength,
             echobuffer[..echobufferIndex + 1], echobufferAllocated, calls, overflowData, attributes, fault)
    }

    /** What holds between two calls of the public operations. */
    predicate Valid()
      reads this, echobuffer
    {
      Shaped() && Resting(Model())
    }

    /** `esi_parser_new`: the start state, no mark, no overflow buffer, an empty echo buffer of
        1024 bytes, no attributes and no handler called yet.  The source leaves `prev_state`,
        `tag_text`, `attr_key`, `attr_value` and the three lengths uninitialised; the parameters
        stand for whatever they hold. */
    constructor (prevState: int, unset: EsiScan.Ptr, garbage: int)
      ensures Valid() && fresh(echobuffer)
      ensures cs == LEGACY_START && mark == EsiScan.Null && overflowData == None && !fault
      ensures Model().echo == [] && echobufferAllocated == ECHO_CAPACITY && attributes == [] && calls == []
      ensures Model() == Legacy(LEGACY_START, prevState, EsiScan.Null, unset, garbage, unset, garbage, unset, garbage,
                                [], ECHO_CAPACITY, [], None, [], false)
    {
      cs := LEGACY_START;
      mark := EsiScan.Null;
      overflowData := None;
      echobufferAllocated := ECHO_CAPACITY;
      echobufferIndex := -1;
      echobuffer := new Byte[ECHO_CAPACITY];
      attributes := [];
      calls := [];
      this.prevState := prevState;
      tagText, attrKey, attrValue := unset, unset, unset;
      tagTextLength, attrKeyLength, attrValueLength := garbage, garbage, garbage;
      fault := false;
    }

    /** `esi_parser_init`. */
    method Init() returns (r: int)
      requires Valid()
      modifies this
      ensures Valid() && Model() == LegacyScan.Init(old(Model())) && r == 0
      ensures echobuffer == old(echobuffer)
    {
      cs := LEGACY_START;
      prevState := cs;
      r := 0;
    }

    /** `esi_parser_echo_char`. */
    method EchoChar(ch: Byte)
      requires Shaped()
      modifies this
      ensures Shaped() && Model() == old(Model()).(calls := LegacyScan.EchoChar(old(calls), ch))
      ensures echobuffer == old(echobuffer)
    {
      calls := calls + [EsiScan.OutputCall([ch])];
    }

    /** `esi_parser_echo_buffer`: `echobuffer_index + 1` bytes from the start of the buffer. */
    method EchoBuffer()
      requires Shaped()
      modifies this
      ensures Shaped() && Model() == old(Model()).(calls := LegacyScan.EchoBuffer(old(calls), old(Model()).echo))
      ensures echobuffer == old(echobuffer)
    {
      calls := calls + [EsiScan.OutputCall(echobuffer[..echobufferIndex + 1])];
    }

    /** `esi_parser_concat_to_echobuffer`: the index moves on, the buffer is replaced by one
        twice as large when the index has reached its size, and the byte is written. */
    method ConcatToEchobuffer(ch: Byte)
      requires Shaped()
      modifies this, echobuffer
      ensures Shaped() && Model() == LegacyScan.ConcatToEchobuffer(old(Model()), ch)
      ensures echobuffer == old(echobuffer) || fresh(echobuffer)
    {
      if echobufferAllocated <= echobufferIndex + 1 {
        Grow();
      }
      echobufferIndex := echobufferIndex + 1;
      echobuffer[echobufferIndex] := ch;
      assert echobuffer[..echobufferIndex + 1] == old(echobuffer[..echobufferIndex + 1]) + [ch];
    }

    /** The `realloc` of the echo buffer to twice its size, keeping its contents. */
    method Grow()
      requires Shaped()
      modifies this
      ensures Shaped() && fresh(echobuffer) && echobufferAllocated == 2 * old(echobufferAllocated)
      ensures echobufferIndex == old(echobufferIndex)
      ensures Model() == old(Model()).(echoAllocated := echobufferAllocated)
    {
      var grown := new Byte[2 * echobufferAllocated];
      forall i | 0 <= i < echobuffer.Length {
        grown[i] := echobuffer[i];
      }
      assert grown[..echobufferIndex + 1] == echobuffer[..echobufferIndex + 1];
      echobufferAllocated := 2 * echobufferAllocated;
      echobuffer := grown;
    }

    /** The step the source runs at the head of every action, once `cs` holds the new state. */
    method EchoStep(target: int, ch: Byte)
      requires Shaped()
      modifies this, echobuffer
      ensures Shaped() && Model() == LegacyScan.EchoStep(old(Model()), target, ch)
      ensures echobuffer == old(echobuffer) || fresh(echobuffer)
    {
      if target == 0 {
        NoMatch(ch);
      } else {
        cs := target;
        ConcatToEchobuffer(ch);
        prevState := cs;
      }
    }

    /** The state-0 branch of `EchoStep`: unless the previous state was 12 or 7, the staged
        bytes, if any, and then the current byte go to the output handler; the stage is cleared. */
    method NoMatch(ch: Byte)
      requires Shaped()
      modifies this
      ensures Shaped() && Model() == LegacyScan.EchoStep(old(Model()), 0, ch)
      ensures echobuffer == old(echobuffer)
    {
      if prevState != 12 && prevState != 7 {
        if echobufferIndex != -1 {
          EchoBuffer();
        }
        EchoChar(ch);
      }
      cs, echobufferIndex, prevState := 0, -1, 0;
    }

    /** `tag_text`, `tag_text_length` and `mark` as an action leaves them. */
    method SetTagText(tag: EsiScan.Ptr, tagLength: int, p: int)
      requires Shaped()
      modifies this
      ensures Shaped() && echobuffer == old(echobuffer)
      ensures Model() == old(Model()).(tagText := tag, tagTextLength := tagLength, mark := EsiScan.At(p))
    {
      tagText, tagTextLength, mark := tag, tagLength, EsiScan.At(p);
    }

    /** The end of every action that completes a tag: the handler calls, then `tag_text` as
        given, `mark` at the current byte and the echo buffer cleared. */
    method CompleteTag(made: seq<EsiScan.Call>, tag: EsiScan.Ptr, tagLength: int, p: int)
      requires Shaped()
      modifies this
      ensures Shaped() && echobuffer == old(echobuffer)
      ensures Model() == old(Model()).(calls := old(calls) + made, tagText := tag, tagTextLength := tagLength,
                                       mark := EsiScan.At(p), echo := [])
    {
      calls := calls + made;
      SetTagText(tag, tagLength, p);
      echobufferIndex := -1;
    }

    /** `f2`. */
    method EndTag(buf: seq<Byte>, p: int)
      requires Shaped() && Ready(Model(), Action.EndTag, buf, p)
      modifies this
      ensures Shaped() && Model() == EndTagAction(old(Model()), buf, p)
      ensures echobuffer == old(echobuffer)
    {
      ghost var s := Model();
      var start, len := TrimSpan(buf, mark.off + 2, p - (mark.off + 2), p);
      CompleteTag([EsiScan.EndTagCall(Text(buf, Span(start, len)))], EsiScan.At(start), len, p);
      EndTagResult(s, buf, p, start, len);
    }

    /** `f3`. */
    method TagName(buf: seq<Byte>, p: int)
      requires Shaped() && Ready(Model(), Action.TagName, buf, p)
      modifies this
      ensures Shaped() && Model() == TagNameAction(old(Model()), buf, p)
      ensures echobuffer == old(echobuffer)
    {
      SetTagText(EsiScan.At(mark.off + 1), p - (mark.off + 1), p);
    }

    /** `f4`: the start tag handler gets a null attribute list. */
    method StartTagNoAttrs(buf: seq<Byte>, p: int)
      requires Shaped() && Ready(Model(), Action.StartTagNoAttrs, buf, p)
      modifies this
      ensures Shaped() && Model() == StartTagNoAttrsAction(old(Model()), buf, p)
      ensures echobuffer == old(echobuffer)
    {
      var start, len := TrimSpan(buf, mark.off, p - mark.off, p);
      CompleteTag([EsiScan.StartTagCall(Text(buf, Span(start, len)), [])], EsiScan.At(start), len, p);
    }

    /** `f5`: the attribute list is handed over and kept. */
    method StartTag(buf: seq<Byte>, p: int)
      requires Shaped() && Ready(Model(), Action.StartTag, buf, p)
      modifies this
      ensures Shaped() && Model() == StartTagAction(old(Model()), buf, p)
      ensures echobuffer == old(echobuffer)
    {
      var start, len := TrimSpan(buf, tagText.off, tagTextLength, p);
      CompleteTag([EsiScan.StartTagCall(Text(buf, Span(start, len)), attributes)], EsiScan.Null, 0, p);
    }

    /** `f6`. */
    method AttrKey(buf: seq<Byte>, p: int)
      requires Shaped() && Ready(Model(), Action.AttrKey, buf, p)
      modifies this
      ensures Shaped() && Model() == AttrKeyAction(old(Model()), buf, p)
      ensures echobuffer == old(echobuffer)
    {
      var start, len := TrimSpan(buf, mark.off, p - mark.off, p);
      attrKey, attrKeyLength, mark := EsiScan.At(start), len, EsiScan.At(p);
    }

    /** `f7` and `f10`: `esi_attribute_new` of the key and the value, linked at the end. */
    method AttrValue(buf: seq<Byte>, p: int)
      requires Shaped() && Ready(Model(), Action.AttrValue, buf, p)
      modifies this
      ensures Shaped() && Model() == AttrValueAction(old(Model()), buf, p)
      ensures echobuffer == old(echobuffer)
    {
      var start, len := TrimSpan(buf, mark.off, p - mark.off, p);
      var key := Text(buf, Span(attrKey.off, attrKeyLength));
      ghost var s := Model();
      CaptureValue(start, len, p, AttributeNew(key, attrKeyLength, Text(buf, Span(start, len)), len));
      AttrValueResult(s, buf, p, start, len);
    }

    /** The end of `f7`: the value's span, `mark` at the current byte and the attribute appended. */
    method CaptureValue(start: int, len: int, p: int, attr: Attribute)
      requires Shaped()
      modifies this
      ensures Shaped() && echobuffer == old(echobuffer)
      ensures Model() == old(Model()).(attrValue := EsiScan.At(start), attrValueLength := len, mark := EsiScan.At(p),
                                       attributes := old(attributes) + [attr])
    {
      attrValue, attrValueLength, mark, attributes := EsiScan.At(start), len, EsiScan.At(p), attributes + [attr];
    }

    /** `f8`: the start tag handler and the end tag handler, with the same name. */
    method EmptyTag(buf: seq<Byte>, p: int)
      requires Shaped() && Ready(Model(), Action.EmptyTag, buf, p)
      modifies this
      ensures Shaped() && Model() == EmptyTagAction(old(Model()), buf, p)
      ensures echobuffer == old(echobuffer)
    {
      var start, len := TrimSpan(buf, tagText.off, tagTextLength, p);
      var name := Text(buf, Span(start, len));
      CompleteTag([EsiScan.StartTagCall(name, attributes), EsiScan.EndTagCall(name)], EsiScan.Null, 0, p);
    }

    /** The action of a transition, after the common step. */
    method ApplyAction(a: Action, buf: seq<Byte>, p: int)
      requires Shaped() && Ready(Model(), a, buf, p)
      modifies this
      ensures Shaped() && Model() == LegacyScan.ApplyAction(old(Model()), a, buf, p)
      ensures echobuffer == old(echobuffer)
    {
      match a
      case Echo =>
      case EchoMark => mark := EsiScan.At(p);
      case EndTag => EndTag(buf, p);
      case TagName => TagName(buf, p);
      case StartTagNoAttrs => StartTagNoAttrs(buf, p);
      case StartTag => StartTag(buf, p);
      case AttrKey => AttrKey(buf, p);
      case AttrValue => AttrValue(buf, p);
      case EmptyTag => EmptyTag(buf, p);
    }

    /** One pass through the generated `switch ( cs )`: the transition for the byte at `p`,
        the common step, and the transition's action, unless its pointers lie outside the
        bytes scanned. */
    method ExecuteByte(t: Table, buf: seq<Byte>, p: int)
      requires Shaped() && 0 <= p < |buf| && !fault
      modifies this, echobuffer
      ensures Shaped() && Model() == Step(t, old(Model()), buf, p)
      ensures echobuffer == old(echobuffer) || fresh(echobuffer)
    {
      var m := t(cs, buf[p]);
      EchoStep(m.target, buf[p]);
      if Ready(Model(), m.action, buf, p) {
        ApplyAction(m.action, buf, p);
      } else {
        fault := true;
      }
    }

    /** The prologue: the chunk is appended to a non-empty overflow buffer, and a null `mark`
        is set to the first new byte.  The pointers are offsets from the start of the buffer
        being scanned, so the offsets `compute_offset` takes and re-bases onto the grown buffer
        are the offsets the pointers already hold. */
    method Prologue(data: seq<Byte>) returns (buf: seq<Byte>, start: int)
      requires Valid() && |data| > 0
      modifies this
      ensures Shaped() && Model() == Resume(old(Model()), data)
      ensures buf == ScanBuffer(old(Model()), data) && start == ScanStart(old(Model()))
      ensures echobuffer == old(echobuffer)
    {
      buf, start := data, 0;
      if overflowData.Some? && |overflowData.value| > 0 {
        start := |overflowData.value|;
        buf := overflowData.value + data;
        overflowData := Some(buf);
      }
      if mark == EsiScan.Null {
        mark := EsiScan.At(start);
      }
    }

    /** The generated loop, from `start` to the end of the buffer or the first fault. */
    method RunLoop(t: Table, buf: seq<Byte>, start: int)
      requires Shaped() && 0 <= start <= |buf|
      modifies this, echobuffer
      ensures Shaped() && Model() == Run(t, old(Model()), buf, start)
      ensures echobuffer == old(echobuffer) || fresh(echobuffer)
    {
      var p := start;
      while p < |buf| && !fault
        invariant Shaped() && start <= p <= |buf|
        invariant Run(t, Model(), buf, p) == Run(t, old(Model()), buf, start)
        invariant echobuffer == old(echobuffer) || fresh(echobuffer)
        decreases |buf| - p
      {
        ExecuteByte(t, buf, p);
        p := p + 1;
      }
    }

    /** The epilogue: outside 0 and the start state the scanned buffer is kept (the caller's
        chunk is copied when there was no overflow buffer); in 0 or the start state the
        overflow buffer is freed, and the pointers into it or into the caller's chunk dangle. */
    method Epilogue(buf: seq<Byte>)
      requires Shaped() && (overflowData.Some? ==> overflowData == Some(buf))
      modifies this
      ensures Shaped() && Model() == CarryOver(old(Model()), buf)
      ensures echobuffer == old(echobuffer)
    {
      if cs != LEGACY_START && cs != 0 {
        if overflowData.None? {
          overflowData := Some(buf);
        }
      } else {
        overflowData := None;
        Dangle();
      }
    }

    /** The four pointers once the buffer they point into is freed or handed back. */
    method Dangle()
      requires Shaped()
      modifies this
      ensures Shaped() && echobuffer == old(echobuffer)
      ensures Model() == old(Model()).(mark := EsiScan.Release(old(mark)), tagText := EsiScan.Release(old(tagText)),
                                       attrKey := EsiScan.Release(old(attrKey)), attrValue := EsiScan.Release(old(attrValue)))
    {
      mark, tagText, attrKey, attrValue := EsiScan.Release(mark), EsiScan.Release(tagText), EsiScan.Release(attrKey), EsiScan.Release(attrValue);
    }

    /** `esi_parser_execute(parser, data, length)` with the generated table `t`; it returns the
        new `cs`. */
    method Execute(t: Table, data: seq<Byte>) returns (r: int)
      requires Valid()
      modifies this, echobuffer
      ensures Valid() && Model() == LegacyScan.Execute(t, old(Model()), data) && r == cs
      ensures echobuffer == old(echobuffer) || fresh(echobuffer)
    {
      if |data| == 0 || fault {
        return cs;
      }
      var buf, start := Prologue(data);
      RunLoop(t, buf, start);
      Epilogue(buf);
      r := cs;
    }

    /** `esi_parser_finish`: it does nothing and returns 0; staged bytes stay staged. */
    method Finish() returns (r: int)
      requires Valid()
      ensures r == 0
    {
      r := 0;
    }
  }

  /** The state `f2` leaves, in the terms `Parser.EndTag` builds it. */
  lemma EndTagResult(s: Legacy, buf: seq<Byte>, p: int, start: int, len: int)
    requires Ready(s, Action.EndTag, buf, p)
    requires Span(start, len) == Trimmed(buf, Span(s.mark.off + 2, p - (s.mark.off + 2)), p)
    ensures EndTagAction(s, buf, p) == s.(mark := EsiScan.At(p), tagText := EsiScan.At(start), tagTextLength := len,
                                          calls := s.calls + [EsiScan.EndTagCall(Text(buf, Span(start, len)))], echo := [])
  {
  }

  /** The state `f7` leaves, in the terms `Parser.AttrValue` builds it. */
  lemma AttrValueResult(s: Legacy, buf: seq<Byte>, p: int, start: int, len: int)
    requires Ready(s, Action.AttrValue, buf, p)
    requires Span(start, len) == Trimmed(buf, Span(s.mark.off, p - s.mark.off), p)
    ensures var key := Text(buf, Span(s.attrKey.off, s.attrKeyLength));
            AttrValueAction(s, buf, p)
              == s.(attrValue := EsiScan.At(start), attrValueLength := len, mark := EsiScan.At(p),
                    attributes := s.attributes + [AttributeNew(key, s.attrKeyLength, Text(buf, Span(start, len)), len)])
  {
  }
}
