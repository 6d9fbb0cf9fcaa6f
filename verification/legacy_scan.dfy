/** What one call of `esi_parser_execute` of the earlier revision, `parser.c`, does, as functions
    on the parser's state.  Three things set it apart from the nginx revision.  It has no output
    buffer: each byte let through is a call of the output handler of its own, and the staged
    bytes go out in one call.  It has no prescan.  Its tag actions never release the attribute
    list, so every start tag is handed all attributes seen since the parser was made.

    The generated table of 323 states is a parameter: any function from a state and a byte to
    the next state and the action to run.  With an arbitrary table nothing guarantees that the
    pointer an action derives a span from lies in the buffer being scanned, so every step checks
    it.  An action that would compute or read a span through a null, freed or uninitialised
    pointer, or outside the bytes scanned so far, sets `fault` instead, and nothing more happens:
    the source would read memory it does not own, as it does through a null `tag_text`. */
module LegacyScan {
  import opened Bytes
  import opened Trim
  import opened Attributes
  import opened EsiMachine
  import opened EsiScan

  /** `esi_start`, the start state and first final state of the generated machine. */
  const LEGACY_START := 309
  /** The size `esi_parser_new` gives the echo buffer. */
  const ECHO_CAPACITY := 1024

  /** The generated table: for a state and a byte, the state entered and the action run.  The
      twelve actions are those of `EsiMachine.Action`: `f9` runs what `f0` runs, `f11` what `f1`
      runs and `f10` what `f7` runs (the `finish` action they add is empty). */
  type Table = (int, Byte) -> Move

  /** The fields of `ESIParser` of this revision.  `echo` is `echobuffer[0..echobuffer_index]`,
      `echoAllocated` is `echobuffer_allocated`, `overflow` is
      `overflow_data[0..overflow_data_size]` when that buffer exists, `calls` the calls made to
      the three handlers. */
  datatype Legacy = Legacy(
    cs: int,
    prevState: int,
    mark: Ptr,
    tagText: Ptr, tagTextLength: int,
    attrKey: Ptr, attrKeyLength: int,
    attrValue: Ptr, attrValueLength: int,
    echo: seq<Byte>, echoAllocated: int,
    calls: seq<Call>,
    overflow: Option<seq<Byte>>,
    attributes: seq<Attribute>,
    fault: bool)

  /** The staged bytes fit the echo buffer's allocation. */
  predicate Fits(s: Legacy) {
    1 <= s.echoAllocated && |s.echo| <= s.echoAllocated
  }

  /** `esi_parser_echo_char`: the byte goes to the output handler, alone, in one call. */
  function EchoChar(calls: seq<Call>, b: Byte): (r: seq<Call>)
    ensures Delivered(r) == Delivered(calls) + [b]
    ensures calls <= r && |r| == |calls| + 1
  {
    DeliveredSnoc(calls, OutputCall([b]));
    calls + [OutputCall([b])]
  }

  /** `esi_parser_echo_buffer`: all staged bytes go to the output handler in a single call. */
  function EchoBuffer(calls: seq<Call>, echo: seq<Byte>): (r: seq<Call>)
    ensures Delivered(r) == Delivered(calls) + echo
    ensures calls <= r && |r| == |calls| + 1
  {
    DeliveredSnoc(calls, OutputCall(echo));
    calls + [OutputCall(echo)]
  }

  /** `esi_parser_concat_to_echobuffer`: the index moves on; when it reaches the allocation, the
      allocation is doubled first, so the byte is written inside it and the bytes staged before
      are kept. */
  function ConcatToEchobuffer(s: Legacy, b: Byte): (r: Legacy)
    requires Fits(s)
    ensures Fits(r) && r.echo == s.echo + [b] && |r.echo| <= r.echoAllocated
    ensures r.echoAllocated == (if s.echoAllocated <= |s.echo| then 2 * s.echoAllocated else s.echoAllocated)
    ensures r == s.(echo := r.echo, echoAllocated := r.echoAllocated)
  {
    var index := |s.echo|;
    var capacity := if s.echoAllocated <= index then s.echoAllocated * 2 else s.echoAllocated;
    s.(echo := s.echo + [b], echoAllocated := capacity)
  }

  /** The bytes the step of a transition into `target` lets through: the staged bytes and the
      current byte when the transition enters state 0 from any state but 12 and 7, and nothing
      otherwise. */
  function LetThrough(prevState: int, target: int, echo: seq<Byte>, b: Byte): seq<Byte> {
    if target == 0 && prevState != 12 && prevState != 7 then echo + [b] else []
  }

  /** The step every transition runs before its action, with `cs` already the new state: in
      state 0 the staged bytes, in one call, and then the current byte, in another, go to the
      output handler unless the previous state was 12 or 7, and the stage is cleared; in any
      other state the byte is staged.  `prev_state` becomes the new state. */
  function EchoStep(s: Legacy, target: int, b: Byte): (r: Legacy)
    requires Fits(s)
    ensures Fits(r) && r.cs == target && r.prevState == target
    ensures Delivered(r.calls) == Delivered(s.calls) + LetThrough(s.prevState, target, s.echo, b)
    ensures r == s.(cs := target, prevState := target, echo := r.echo, echoAllocated := r.echoAllocated, calls := r.calls)
    ensures target != 0 ==> r.echo == s.echo + [b] && r.calls == s.calls
    ensures target == 0 ==> r.echo == [] && s.calls <= r.calls
    ensures target == 0 && s.prevState != 12 && s.prevState != 7 ==>
              |r.calls| == |s.calls| + (if s.echo == [] then 1 else 2)
    ensures target == 0 && (s.prevState == 12 || s.prevState == 7) ==> r.calls == s.calls
  {
    if target == 0 then
      var calls :=
        if s.prevState != 12 && s.prevState != 7 then
          EchoChar(if |s.echo| > 0 then EchoBuffer(s.calls, s.echo) else s.calls, b)
        else s.calls;
      s.(cs := 0, prevState := 0, echo := [], calls := calls)
    else
      ConcatToEchobuffer(s, b).(cs := target, prevState := target)
  }

  /** Actions that compute a span starting at or after `mark`. */
  predicate FromMark(a: Action) {
    a.EndTag? || a.TagName? || a.StartTagNoAttrs? || a.AttrKey? || a.AttrValue?
  }

  /** The bytes before its span that an action skips after `mark`: `</` for `f2`, `<` for `f3`. */
  function Skip(a: Action): nat {
    match a
    case EndTag => 2
    case TagName => 1
    case _ => 0
  }

  /** The pointers the action of a transition taken at position `p` derives spans from lie in
      the bytes scanned so far. */
  predicate Ready(s: Legacy, a: Action, buf: seq<Byte>, p: int) {
    && 0 <= p < |buf| && Fits(s)
    && (FromMark(a) ==> s.mark.At? && 0 <= s.mark.off && s.mark.off + Skip(a) <= p)
    && ((a.StartTag? || a.EmptyTag?) ==> SpanBefore(s.tagText, s.tagTextLength, p))
    && (a.AttrValue? ==> SpanBefore(s.attrKey, s.attrKeyLength, p))
  }

  /** `f2`: `</esi:name>` is complete.  The end tag handler gets the text after `</`, trimmed;
      nothing is flushed before it, as this revision has no output buffer. */
  function EndTagAction(s: Legacy, buf: seq<Byte>, p: int): (r: Legacy)
    requires Ready(s, EndTag, buf, p)
    ensures SpanBefore(r.tagText, r.tagTextLength, p) && r.mark == At(p) && r.echo == []
    ensures Span(r.tagText.off, r.tagTextLength) == Trimmed(buf, Span(s.mark.off + 2, p - (s.mark.off + 2)), p)
    ensures r.calls == s.calls + [EndTagCall(SpanText(buf, r.tagText, r.tagTextLength, p))]
    ensures r == s.(mark := r.mark, tagText := r.tagText, tagTextLength := r.tagTextLength, calls := r.calls, echo := [])
    ensures Delivered(r.calls) == Delivered(s.calls)
  {
    var name := Trimmed(buf, Span(s.mark.off + 2, p - (s.mark.off + 2)), p);
    assert SpanText(buf, At(name.start), name.len, p) == Text(buf, name);
    DeliveredSnoc(s.calls, EndTagCall(Text(buf, name)));
    s.(mark := At(p), tagText := At(name.start), tagTextLength := name.len,
       calls := s.calls + [EndTagCall(Text(buf, name))], echo := [])
  }

  /** `f3`: the tag name ends at white space; it starts after the `<` at `mark`. */
  function TagNameAction(s: Legacy, buf: seq<Byte>, p: int): (r: Legacy)
    requires Ready(s, TagName, buf, p)
    ensures SpanBefore(r.tagText, r.tagTextLength, p) && r.mark == At(p)
    ensures r.tagText.off == s.mark.off + 1 && r.tagText.off + r.tagTextLength == p
    ensures r == s.(mark := r.mark, tagText := r.tagText, tagTextLength := r.tagTextLength)
  {
    s.(tagText := At(s.mark.off + 1), tagTextLength := p - (s.mark.off + 1), mark := At(p))
  }

  /** `f4`: `<esi:name>` is complete.  The start tag handler gets the trimmed name and a null
      attribute list; the attributes collected so far stay where they are. */
  function StartTagNoAttrsAction(s: Legacy, buf: seq<Byte>, p: int): (r: Legacy)
    requires Ready(s, StartTagNoAttrs, buf, p)
    ensures SpanBefore(r.tagText, r.tagTextLength, p) && r.mark == At(p) && r.echo == []
    ensures Span(r.tagText.off, r.tagTextLength) == Trimmed(buf, Span(s.mark.off, p - s.mark.off), p)
    ensures r.calls == s.calls + [StartTagCall(SpanText(buf, r.tagText, r.tagTextLength, p), [])]
    ensures r == s.(mark := r.mark, tagText := r.tagText, tagTextLength := r.tagTextLength, calls := r.calls, echo := [])
    ensures Delivered(r.calls) == Delivered(s.calls)
  {
    var name := Trimmed(buf, Span(s.mark.off, p - s.mark.off), p);
    assert SpanText(buf, At(name.start), name.len, p) == Text(buf, name);
    DeliveredSnoc(s.calls, StartTagCall(Text(buf, name), []));
    s.(tagText := At(name.start), tagTextLength := name.len, mark := At(p),
       calls := s.calls + [StartTagCall(Text(buf, name), [])], echo := [])
  }

  /** `f5`: `<esi:name attributes>` is complete.  The start tag handler gets the name captured
      by `f3`, trimmed, and every attribute collected since the parser was made; the list is
      not released.  `tag_text` becomes null. */
  function StartTagAction(s: Legacy, buf: seq<Byte>, p: int): (r: Legacy)
    requires Ready(s, StartTag, buf, p)
    ensures r.tagText == Null && r.tagTextLength == 0 && r.mark == At(p) && r.echo == []
    ensures var name := Text(buf, Trimmed(buf, Span(s.tagText.off, s.tagTextLength), p));
            r.calls == s.calls + [StartTagCall(name, s.attributes)]
    ensures r == s.(mark := r.mark, tagText := Null, tagTextLength := 0, calls := r.calls, echo := [])
    ensures Delivered(r.calls) == Delivered(s.calls)
  {
    var name := Trimmed(buf, Span(s.tagText.off, s.tagTextLength), p);
    DeliveredSnoc(s.calls, StartTagCall(Text(buf, name), s.attributes));
    s.(calls := s.calls + [StartTagCall(Text(buf, name), s.attributes)],
       tagText := Null, tagTextLength := 0, mark := At(p), echo := [])
  }

  /** `f6`: an attribute key is complete: the text from `mark`, trimmed. */
  function AttrKeyAction(s: Legacy, buf: seq<Byte>, p: int): (r: Legacy)
    requires Ready(s, AttrKey, buf, p)
    ensures SpanBefore(r.attrKey, r.attrKeyLength, p) && r.mark == At(p)
    ensures Span(r.attrKey.off, r.attrKeyLength) == Trimmed(buf, Span(s.mark.off, p - s.mark.off), p)
    ensures r == s.(mark := r.mark, attrKey := r.attrKey, attrKeyLength := r.attrKeyLength)
  {
    var key := Trimmed(buf, Span(s.mark.off, p - s.mark.off), p);
    s.(attrKey := At(key.start), attrKeyLength := key.len, mark := At(p))
  }

  /** `f7`, `f10`: an attribute value is complete: the text from `mark`, trimmed.  A new
      attribute made of copies of the last key and of the value goes at the end of the list. */
  function AttrValueAction(s: Legacy, buf: seq<Byte>, p: int): (r: Legacy)
    requires Ready(s, AttrValue, buf, p)
    ensures SpanBefore(r.attrValue, r.attrValueLength, p) && r.mark == At(p)
    ensures Span(r.attrValue.off, r.attrValueLength) == Trimmed(buf, Span(s.mark.off, p - s.mark.off), p)
    ensures |r.attributes| == |s.attributes| + 1 && r.attributes[..|s.attributes|] == s.attributes
    ensures r.attributes[|s.attributes|].name == SpanText(buf, s.attrKey, s.attrKeyLength, p) + [NUL]
    ensures r.attributes[|s.attributes|].value == SpanText(buf, r.attrValue, r.attrValueLength, p) + [NUL]
    ensures r == s.(mark := r.mark, attrValue := r.attrValue, attrValueLength := r.attrValueLength, attributes := r.attributes)
  {
    var value := Trimmed(buf, Span(s.mark.off, p - s.mark.off), p);
    var key := Span(s.attrKey.off, s.attrKeyLength);
    var keyText, valueText := Text(buf, key), Text(buf, value);
    var attr := AttributeNew(keyText, key.len, valueText, value.len);
    AttributeNewOfWhole(keyText, key.len, valueText, value.len);
    assert keyText == SpanText(buf, s.attrKey, s.attrKeyLength, p);
    assert valueText == SpanText(buf, At(value.start), value.len, p);
    var attributes := s.attributes + [attr];
    assert attributes[|s.attributes|] == attr && attributes[..|s.attributes|] == s.attributes;
    s.(attrValue := At(value.start), attrValueLength := value.len, mark := At(p), attributes := attributes)
  }

  /** `f8`: `<esi:name attributes/>` is complete.  The start tag handler and then the end tag
      handler get the same trimmed name, the first with every attribute collected so far; the
      list is not released.  `tag_text` becomes null. */
  function EmptyTagAction(s: Legacy, buf: seq<Byte>, p: int): (r: Legacy)
    requires Ready(s, EmptyTag, buf, p)
    ensures r.tagText == Null && r.tagTextLength == 0 && r.mark == At(p) && r.echo == []
    ensures var name := Text(buf, Trimmed(buf, Span(s.tagText.off, s.tagTextLength), p));
            r.calls == s.calls + [StartTagCall(name, s.attributes), EndTagCall(name)]
    ensures r == s.(mark := r.mark, tagText := Null, tagTextLength := 0, calls := r.calls, echo := [])
    ensures Delivered(r.calls) == Delivered(s.calls)
  {
    var name := Text(buf, Trimmed(buf, Span(s.tagText.off, s.tagTextLength), p));
    AddsCalls(s.calls, [StartTagCall(name, s.attributes), EndTagCall(name)]);
    s.(calls := s.calls + [StartTagCall(name, s.attributes), EndTagCall(name)],
       tagText := Null, tagTextLength := 0, mark := At(p), echo := [])
  }

  /** The action of a transition, run after the echo step.  None of them lets a byte through,
      changes the state, or takes anything away from the calls made or the attribute list. */
  function ApplyAction(s: Legacy, a: Action, buf: seq<Byte>, p: int): (r: Legacy)
    requires Ready(s, a, buf, p)
    ensures Delivered(r.calls) == Delivered(s.calls) && s.calls <= r.calls
    ensures s.attributes <= r.attributes && (a != AttrValue ==> r.attributes == s.attributes)
    ensures r.cs == s.cs && r.prevState == s.prevState && r.overflow == s.overflow && r.fault == s.fault
    ensures r.echo == s.echo || r.echo == []
    ensures r.echoAllocated == s.echoAllocated
  {
    match a
    case Echo => s
    case EchoMark => s.(mark := At(p))
    case EndTag => EndTagAction(s, buf, p)
    case TagName => TagNameAction(s, buf, p)
    case StartTagNoAttrs => StartTagNoAttrsAction(s, buf, p)
    case StartTag => StartTagAction(s, buf, p)
    case AttrKey => AttrKeyAction(s, buf, p)
    case AttrValue => AttrValueAction(s, buf, p)
    case EmptyTag => EmptyTagAction(s, buf, p)
  }

  /** Tag handler calls deliver nothing. */
  lemma {:induction false} AddsCalls(calls: seq<Call>, more: seq<Call>)
    requires forall i :: 0 <= i < |more| ==> !more[i].OutputCall?
    ensures Delivered(calls + more) == Delivered(calls)
    decreases |more|
  {
    if more == [] {
      assert calls + more == calls;
    } else {
      var front := more[..|more| - 1];
      assert forall i :: 0 <= i < |front| ==> front[i] == more[i];
      assert !more[|more| - 1].OutputCall?;
      AddsCalls(calls, front);
      assert calls + more == (calls + front) + [more[|more| - 1]];
      DeliveredSnoc(calls + front, more[|more| - 1]);
    }
  }

  /** One byte of the generated loop: the transition, the echo step, then the action, or a
      fault when the action's pointers do not lie in the bytes scanned. */
  function Step(t: Table, s: Legacy, buf: seq<Byte>, p: int): (r: Legacy)
    requires 0 <= p < |buf| && Fits(s) && !s.fault
    ensures Fits(r) && r.cs == t(s.cs, buf[p]).target && r.prevState == r.cs
    ensures r.overflow == s.overflow && s.calls <= r.calls && s.attributes <= r.attributes
    ensures Delivered(r.calls) == Delivered(s.calls) + LetThrough(s.prevState, r.cs, s.echo, buf[p])
    ensures r.cs == 0 ==> r.echo == []
  {
    var m := t(s.cs, buf[p]);
    var e := EchoStep(s, m.target, buf[p]);
    if Ready(e, m.action, buf, p) then ApplyAction(e, m.action, buf, p) else e.(fault := true)
  }

  /** A transition whose action is `f5` or `f8`, taken while `tag_text` is null, faults: the
      source trims the name through the null pointer. */
  lemma NullTagTextFaults(t: Table, s: Legacy, buf: seq<Byte>, p: int)
    requires 0 <= p < |buf| && Fits(s) && !s.fault && s.tagText == Null
    requires t(s.cs, buf[p]).action == StartTag || t(s.cs, buf[p]).action == EmptyTag
    ensures Step(t, s, buf, p).fault
  {
  }

  /** The generated loop from position `p` to the end of the buffer; a fault ends it.  The
      calls made and the attribute list only grow, and the overflow buffer is not touched. */
  function Run(t: Table, s: Legacy, buf: seq<Byte>, p: int): (r: Legacy)
    requires 0 <= p <= |buf| && Fits(s)
    ensures Fits(r) && r.overflow == s.overflow
    ensures s.calls <= r.calls && s.attributes <= r.attributes
    ensures p < |buf| && !s.fault ==> r.prevState == r.cs
    ensures (s.cs == 0 ==> s.echo == []) ==> (r.cs == 0 ==> r.echo == [])
    decreases |buf| - p
  {
    if p == |buf| || s.fault then s else Run(t, Step(t, s, buf, p), buf, p + 1)
  }

  /** What holds between two calls: the echo buffer fits, nothing is staged in state 0, and an
      overflow buffer is never empty. */
  predicate Resting(s: Legacy) {
    && Fits(s)
    && (s.cs == 0 ==> s.echo == [])
    && (s.overflow.Some? ==> |s.overflow.value| > 0)
  }

  /** The buffer a call scans: the overflow buffer with the chunk appended, or the chunk. */
  function ScanBuffer(s: Legacy, data: seq<Byte>): (buf: seq<Byte>)
    ensures s.overflow.Some? ==> buf == s.overflow.value + data
    ensures s.overflow.None? ==> buf == data
  {
    if s.overflow.Some? then s.overflow.value + data else data
  }

  /** The position the automaton starts at: just after the carried bytes. */
  function ScanStart(s: Legacy): nat {
    if s.overflow.Some? then |s.overflow.value| else 0
  }

  /** The prologue of `esi_parser_execute`: the chunk is appended to the overflow buffer, whose
      pointers keep their offsets, and a null `mark` is set to the first new byte. */
  function Resume(s: Legacy, data: seq<Byte>): (r: Legacy)
    requires Resting(s) && |data| > 0
    ensures Fits(r) && ScanStart(s) < |ScanBuffer(s, data)| && r.mark != Null
    ensures r.overflow == (if s.overflow.Some? then Some(ScanBuffer(s, data)) else None)
    ensures s.mark != Null ==> r.mark == s.mark
    ensures s.mark == Null ==> r.mark == At(ScanStart(s))
    ensures r == s.(overflow := r.overflow, mark := r.mark)
  {
    var s1 := s.(overflow := if s.overflow.Some? then Some(ScanBuffer(s, data)) else None);
    if s1.mark == Null then s1.(mark := At(ScanStart(s))) else s1
  }

  /** The end of `esi_parser_execute`: outside 0 and the start state the scanned buffer is kept
      as the overflow buffer (the caller's chunk is copied when there was none), and
      `echobuffer_allocated` is left alone; in 0 or the start state the overflow buffer is
      freed and every pointer into it or into the caller's chunk dangles. */
  function CarryOver(s: Legacy, buf: seq<Byte>): (r: Legacy)
    ensures r.overflow.Some? <==> s.cs != LEGACY_START && s.cs != 0
    ensures r.overflow.Some? ==> r == s.(overflow := Some(buf))
    ensures r.overflow.None? ==> r == s.(overflow := None, mark := Release(s.mark), tagText := Release(s.tagText),
                                         attrKey := Release(s.attrKey), attrValue := Release(s.attrValue))
  {
    if s.cs != LEGACY_START && s.cs != 0 then
      s.(overflow := Some(buf))
    else
      s.(overflow := None, mark := Release(s.mark), tagText := Release(s.tagText),
         attrKey := Release(s.attrKey), attrValue := Release(s.attrValue))
  }

  /** `esi_parser_execute(parser, data, length)`; it returns the new `cs`.  An empty chunk
      changes nothing.  Otherwise the chunk is scanned after the carried bytes; when the scan
      ends outside 0 and the start state, the overflow buffer is the carried bytes followed by
      the chunk, and otherwise there is none.  The calls made and the attributes collected
      before are kept. */
  function Execute(t: Table, s: Legacy, data: seq<Byte>): (r: Legacy)
    requires Resting(s)
    ensures Resting(r)
    ensures |data| == 0 ==> r == s
    ensures s.calls <= r.calls && s.attributes <= r.attributes
    ensures |data| > 0 && !s.fault ==>
              && (r.overflow.Some? <==> r.cs != LEGACY_START && r.cs != 0)
              && (r.overflow.Some? ==> r.overflow.value == (if s.overflow.Some? then s.overflow.value else []) + data)
              && r.prevState == r.cs
  {
    if |data| == 0 || s.fault then s
    else
      var buf := ScanBuffer(s, data);
      assert s.overflow.None? ==> buf == [] + data;
      CarryOver(Run(t, Resume(s, data), buf, ScanStart(s)), buf)
  }

  /** `esi_parser_init`: both `cs` and `prev_state` become the start state. */
  function Init(s: Legacy): (r: Legacy)
    requires Resting(s)
    ensures Resting(r) && r.cs == LEGACY_START && r.prevState == LEGACY_START
    ensures r == s.(cs := r.cs, prevState := r.prevState)
  {
    s.(cs := LEGACY_START, prevState := LEGACY_START)
  }

  /** The per-byte echo step lets through the same bytes in both revisions; they differ only in
      how the bytes are grouped into calls of the output handler. */
  lemma SameBytesLetThrough(s: Scanner, l: Legacy, target: int, b: Byte)
    requires Buffers(s) && Fits(l) && s.echo == l.echo && s.prevState == l.prevState
    ensures Emitted(EsiScan.EchoStep(s, target, b).sink) == Emitted(s.sink) + LetThrough(l.prevState, target, l.echo, b)
    ensures Delivered(EchoStep(l, target, b).calls) == Delivered(l.calls) + LetThrough(l.prevState, target, l.echo, b)
  {
  }
}
