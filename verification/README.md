# nginx-esi: the ESI scanner, the tag list and the filter's tag handlers

nginx-esi is an nginx output filter for Edge Side Includes. Response bodies pass through a
streaming scanner, `esi_parser_execute`, one chunk at a time. The scanner does three things:

- it hands plain text to an output handler;
- it reports each complete `<esi:name attr="value" ...>`, `</esi:name>` and
  `<esi:name .../>` to a start-tag or end-tag handler;
- it keeps the bytes of an unfinished tag in an overflow buffer, so the next chunk can finish
  the tag.

The filter module's handlers keep a list of the open tags and send output on to the response.

This project models four parts of that code:

- The nginx revision of the scanner (`ngx_esi_parser.c`). Its 80-state automaton is modelled in
  full, with:
  - its per-byte echo step;
  - the actions that complete tags and attributes;
  - the prescan that lets a chunk with no possible tag bypass the automaton;
  - the carry-over of an unfinished tag between calls, which is proved to make a call's
    outcome independent of how the text is split into chunks (`EsiSplit`).
- The older scanner (`parser.c`). It has the same helpers and actions but no output buffer, and
  its generated 323-state table is a parameter of the model.
- The tag list of `ngx_esi_tag.c`: new, free, close, debug and close-children.
- The handlers and configuration of `ngx_http_esi_filter_module.c`: the start-tag, end-tag and
  output handlers, the content-type test and the merge of the location configuration.

## How the model is built

Each scanner has two layers:

- **A functional layer.** The parser's fields form one datatype: `EsiScan.Scanner` for the nginx
  revision, `LegacyScan.Legacy` for the old one. Each action and each call of
  `esi_parser_execute` is a function on that datatype, and the properties are proved about these
  functions.
- **An imperative layer.** `NgxEsiParser.EsiParser` and `LegacyParser.Parser` are classes with the
  C struct's fields: arrays for the echo buffer and the output buffer, and the same index
  variables. Their methods run the same loops as the C code. Each method is proved to leave
  `Model()` equal to the matching function applied to the old state.

Other modelling choices:

- **Pointers into the scan buffer** are offsets (`Ptr.At`).
- **Released pointers.** A pointer into a buffer that has been released becomes `Ptr.Dangling`.
  That buffer is either the caller's chunk or the freed overflow buffer. The invariants show that
  no dangling pointer is ever read.
- **Handler calls** are recorded, in order, as a sequence of `Call` values. `Delivered` gives the
  bytes that reached the output handler.
- **The NULL `tag_text` read.** The nginx revision can run `f5` or `f8` while `tag_text` is NULL.
  This happens after a start tag completes inside a quoted attribute value, as in
  `<esi:a x='<esi:b y="1">'>`. The read through the NULL pointer is recorded as `fault`, and
  nothing more happens.
- **Unchecked pointers in the old scanner.** Nothing constrains the old scanner's table, so every
  action there first checks that the pointers it reads lie inside the scanned bytes. When they do
  not, the step faults.

Where the code does not do what its interface or its evident aim says, the model follows the code.
The header comment at `ngx_esi_parser.h:94-96` promises that `esi_parser_finish` flushes any
remaining data; the code disagrees in the first two points below.

- `esi_parser_finish` flushes the output buffer but not the echo buffer (`EsiScan.Finish`).
- The old revision's `esi_parser_finish` does nothing (`LegacyParser.Parser.Finish`).
- In both revisions, a byte that returns to state 0 right after state 12 or 7 is dropped.
- So is the echo buffer held at that point (`EsiScan.EchoStep`, `LegacyScan.EchoStep`).
- Held bytes are also lost when a `<` starts a new tag inside an unfinished start sequence. In
  `x<e<esi:vars>y` the second `<` joins the held `<e` in the echo buffer, and the completed tag
  clears that buffer, so `<e` is never let through (`EsiScan.EchoStep`,
  `EsiScan.StartTagNoAttrsAction`).
- A tag name is matched with `strncmp(literal, name, length)`, so any prefix of a tag name
  selects that tag (`EsiFilter.RecogniseAbbreviations`).

## Model

| member | source | states |
|---|---|---|
| Trim.LTrim | ngx_esi_parser.c:113-124 | the bytes skipped are all white space, `=`, `"`, `<` or `'`; the span shrinks by as many bytes as its start advances; trimming stops at a byte that is none of these, at the bound, or when the span is empty |
| Trim.LTrimPointer | ngx_esi_parser.c:113-124 | the pointer-advancing loop ends on exactly the span `LTrim` describes (the old revision's copy, `parser.c:92-103`, is the same loop) |
| Trim.RTrim | ngx_esi_parser.c:128-140 | the bytes dropped from the end are all white space, `=`, `"`, `>` or `'`; a non-empty span keeps at least one byte; it stops at a byte that is none of these |
| Trim.RTrimPointer | ngx_esi_parser.c:128-140 | the length-reducing loop ends on exactly the span `RTrim` describes (the old revision's copy, `parser.c:107-119`, is the same loop) |
| Trim.TrimSpan | ngx_esi_parser.c:1710-1711 | the `ltrim_pointer` and `rtrim_pointer` calls each action makes, one after the other, leave exactly the span `Trimmed` describes (the same pair appears at lines 1457-1458, 1510-1511, 1568-1569, 1610-1611 and 1661-1662) |
| Attributes.AttributeNewOfWhole | ngx_esi_parser.c:169-184 | `esi_attribute_new` over a whole name and value stores both as NUL-terminated copies |
| Attributes.Strndup | ngx_esi_parser.c:169-175 | `esi_strndup` returns `len + 1` bytes whose last is a NUL |
| Attributes.StrndupKeepsBytes | ngx_esi_parser.c:169-175 | the first `len` bytes of the copy are the first `len` bytes of the source |
| Attributes.StrndupOfPlain | ngx_esi_parser.c:169-175 | when the copied bytes hold no NUL, the copy is a C string of length `len` whose only NUL is its terminator |
| Attributes.AttributeNew | ngx_esi_parser.c:177-184 | the new attribute's name has `name_length + 1` bytes ending in a NUL, and its value likewise |
| Attributes.AttributeNewKeepsBytes | ngx_esi_parser.c:177-184 | the new attribute's name begins with the first `name_length` bytes of `name`, and its value with the first `value_length` bytes of `value` |
| Attributes.AttributeNewLengths | ngx_esi_parser.c:177-184 | a name or value whose given bytes hold no NUL keeps the given length as its `strlen` |
| Attributes.StrLen | ngx_esi_parser.c:192-193 | `strlen` is the position of the first NUL: the byte there is NUL and none before it is |
| Attributes.CopyOne | ngx_esi_parser.c:192-193 | the copy of a node allocates for each string its `strlen` plus one byte, the terminator |
| Attributes.CopyOneIsPlain | ngx_esi_parser.c:192-193 | the copy's name and value are C strings whose only NUL is the terminator, whatever bytes followed the first NUL in the original |
| Attributes.CopyOneKeepsStrings | ngx_esi_parser.c:186-207 | copying an attribute keeps the C strings of its name and value: the same length up to the first NUL and the same bytes |
| Attributes.CopyOneOfPlain | ngx_esi_parser.c:186-207 | an attribute whose strings hold exactly one NUL, at the end, is copied unchanged |
| Attributes.AttributeCopy | ngx_esi_parser.c:186-207 | the copied list has the same length as the original, and each element is the copy of the element at the same position (the old revision's copy, `parser.c:152-173`, is the same walk) |
| EsiMachine.Transition | ngx_esi_parser.c:393-1303 | the generated transition table: every transition keeps the spans the target state needs; from a prefix state only `<`, `e`, `s`, `i` and `:` move on |
| EsiMachine.TagPrefix | ngx_esi_parser.c:393-1303 | states 0..12 of the table: `<esi:name` and `</esi:name>`, with the same two guarantees |
| EsiMachine.AttributeList | ngx_esi_parser.c:393-1303 | the attribute-list states of the table, with the same two guarantees |
| EsiMachine.DoubleQuoted | ngx_esi_parser.c:393-1303 | the states inside a `"` value, with the same two guarantees |
| EsiMachine.DoubleQuotedNested | ngx_esi_parser.c:393-1303 | a tag nested inside a `"` value, with the same two guarantees |
| EsiMachine.NestedQuoted | ngx_esi_parser.c:393-1303 | quoted values inside a nested tag, with the same two guarantees |
| EsiMachine.NestedQuotedNested | ngx_esi_parser.c:393-1303 | tags nested two levels deep, with the same two guarantees |
| EsiMachine.SingleQuoted | ngx_esi_parser.c:393-1303 | the states inside a `'` value, with the same two guarantees |
| EsiMachine.SingleQuotedNested | ngx_esi_parser.c:393-1303 | a tag nested inside a `'` value, with the same two guarantees |
| EsiScan.FlushOutput | ngx_esi_parser.c:49-56 | flushing loses and invents nothing: the bytes let through stay the same and the buffer empties; at most one output call is made, and only for a non-empty buffer, carrying exactly its contents |
| EsiScan.EchoChar | ngx_esi_parser.c:60-67 | the byte is appended to what has been let through; the buffer stays below its size; every call made hands on a full buffer |
| EsiScan.EchoAll | ngx_esi_parser.c:348-356 | echoing a chunk lets through exactly its bytes, handing on only full buffers |
| EsiScan.EchoAllAppend | ngx_esi_parser.c:348-356 | echoing two pieces one after the other is echoing their concatenation |
| EsiScan.Handed | ngx_esi_parser.c:1676-1719 | a tag handler is called after the output buffer is flushed, and nothing is lost from the output |
| EsiScan.ConcatToEchobuffer | ngx_esi_parser.c:95-108 | the byte is appended to the echo buffer, which stays within its capacity; the capacity never shrinks; nothing else changes |
| EsiScan.EchoStep | ngx_esi_parser.c:1305-1331 | the step every transition runs: outside state 0 the byte is held back; on entering 0 the held bytes and the byte are let through, unless the previous state was 12 or 7, when both are dropped; `prev_state` becomes the new state |
| EsiScan.EndTagAction | ngx_esi_parser.c:1676-1719 | `f2`: the end-tag handler gets the trimmed name after `</`; the output is flushed first; the echo buffer is dropped; `mark` moves to the current byte |
| EsiScan.TagNameAction | ngx_esi_parser.c:1395-1427 | `f3`: `tag_text` runs from after `<` up to the current byte |
| EsiScan.StartTagNoAttrsAction | ngx_esi_parser.c:1627-1675 | `f4`: the start-tag handler gets the trimmed name and no attributes, after a flush; the echo buffer and the attribute list are cleared |
| EsiScan.StartTagAction | ngx_esi_parser.c:1481-1531 | `f5`: with a NULL `tag_text` the scanner faults; otherwise the handler gets the trimmed tag text and the attributes collected, and `tag_text`, the echo buffer and the attributes are cleared |
| EsiScan.AttrKeyAction | ngx_esi_parser.c:1532-1571 | `f6`: `attr_key` is the trimmed span from `mark` |
| EsiScan.AttrValueAction | ngx_esi_parser.c:1572-1626 | `f7`/`f11`: one attribute is appended whose name is the key's text and whose value is the trimmed span from `mark`, both NUL-terminated; the earlier attributes are kept |
| EsiScan.EmptyTagAction | ngx_esi_parser.c:1428-1480 | `f8`: with a NULL `tag_text` the scanner faults; otherwise the start-tag handler and then the end-tag handler get the same name, after a flush |
| EsiScan.ApplyAction | ngx_esi_parser.c:1305-1790 | no action changes what has been let through; each keeps or clears the echo buffer |
| EsiScan.Step | ngx_esi_parser.c:1191-1303 | one transition keeps the scanner invariant, so every span an action reads lies inside the scanned bytes; afterwards `prev_state` equals `cs` |
| EsiScan.ActionKeepsInv | ngx_esi_parser.c:1305-1790 | after the echo step, the action of any transition the table allows finds its pointers ready and keeps the invariant |
| EsiScan.StepKeepsOverflow | ngx_esi_parser.c:1191-1303 | scanning a byte never touches the overflow buffer |
| EsiScan.Run | ngx_esi_parser.c:393-1303 | the scan loop keeps the invariant up to the end of the buffer |
| EsiScan.ComputeOffset | ngx_esi_parser.c:277-283 | the offset is -1 exactly for a null pointer, and rebuilding a pointer from its offset gives it back |
| EsiScan.CarryOver | ngx_esi_parser.c:1836-1873 | outside 0 and the start state, the scanned buffer becomes the overflow buffer and the pointers keep their offsets; in 0 or the start state it is freed and every pointer into it dangles; the overwrite of `echobuffer_allocated` at lines 1849-1854 is modelled on its own, by `EchoCapacity.CarryOverAsWritten` |
| EsiScan.ScanBuffer | ngx_esi_parser.c:359-386 | the buffer scanned is the overflow buffer followed by the chunk |
| EsiScan.Resume | ngx_esi_parser.c:359-386 | the prologue appends the chunk to the overflow buffer, sets a null `mark` to the first new byte and restores the invariant |
| EsiScan.Scan | ngx_esi_parser.c:359-1873 | prologue, loop and carry-over leave the scanner at rest again |
| EsiScan.Execute | ngx_esi_parser.c:337-1876 | a call leaves the scanner at rest; an empty chunk changes nothing; in state 0 a chunk with no possible start sequence is let through unchanged |
| EsiScan.Finish | ngx_esi_parser.c:1877-1881 | the output buffer is flushed without losing a byte; nothing else changes |
| EsiScan.New | ngx_esi_parser.c:221-248 | a new parser rests in the start state, with no mark and nothing let through |
| EsiScan.Init | ngx_esi_parser.c:264-275 | `cs` and `prev_state` become the start state |
| EsiOutput.StepOutput | ngx_esi_parser.c:1305-1331 | one step only appends to what has been let through: either the held bytes and the byte move on, or the echo buffer is dropped |
| EsiOutput.RunNeverInventsOutput | ngx_esi_parser.c:393-1331 | the bytes a scan lets through, followed by those still held, are a subsequence of the held bytes and the input |
| EsiOutput.ExecuteNeverInventsOutput | ngx_esi_parser.c:337-1876 | the same for a whole call of `esi_parser_execute`: the output only ever grows, and never by a byte the input did not hold |
| EsiPrescan.ScanFromFindsStart | ngx_esi_parser.c:289-329 | the prescan loop's result is characterised by its invariant |
| EsiScan.ScanFrom | ngx_esi_parser.c:289-329 | the prescan loop from a position returns -1, the `<` already pending, or the position of a later `<` |
| EsiScan.ScanForStart | ngx_esi_parser.c:289-329 | `esi_parser_scan_for_start` returns -1 or the position of a `<` in the chunk |
| EsiPrescan.ScanForStartFindsStart | ngx_esi_parser.c:289-329 | a start sequence is a `<`, then any run of the bytes `/`, `e`, `s` and `i`, then `:`; `esi_parser_scan_for_start` returns the `<` of the first start sequence to complete; when none completes, it returns the `<` of such a run still open at the end of the chunk; and it returns -1 exactly when there is neither |
| EsiPrescan.BypassRun | ngx_esi_parser.c:348-356 | from state 0, on a chunk the prescan rejects, the automaton itself would end in 0 having let through exactly the chunk |
| EsiPrescan.PrescanBypassIsSound | ngx_esi_parser.c:348-356 | the bypass and the automaton give the same scanner, apart from the echo capacity |
| EsiSplit.ExecuteSplit | ngx_esi_parser.c:331-337 | feeding `esi_parser_execute` a text in two chunks, however it is split, ends in the same state, with the same `prev_state`, staged bytes, handler calls, output buffer, attributes and fault as feeding it in one call, and leaves a tag unfinished exactly when the single call does |
| EsiSplit.ExecuteSim | ngx_esi_parser.c:337-1876 | two scanner states that differ only in where their buffer starts (and in the echo capacity) stay so related through any call with the same chunk |
| EsiSplit.ScanSplit | ngx_esi_parser.c:359-1873 | the automaton path on `a + b` against the automaton path on `a` followed by a call with `b`: the results are related in the same way |
| EsiSplit.ExecuteNearScan | ngx_esi_parser.c:347-356 | a call that takes the prescan's bypass ends related to the automaton path both ways |
| EsiSplit.RunPrefixSim | ngx_esi_parser.c:393-1303 | the scan loop over `A + b` is the loop over `A` continued over `b`: no step reads a byte after its own position |
| EsiSplit.RunSim | ngx_esi_parser.c:393-1303 | the scan loop over a buffer and over the same buffer with more bytes in front keeps related states related |
| EsiSplit.StepSim | ngx_esi_parser.c:1191-1790 | one transition, echo step and action keeps related states related when the bytes read agree |
| EsiSplit.ActionSim | ngx_esi_parser.c:1305-1790 | every action, on related states over buffers that agree up to the current byte, gives related states: the same handler calls and attributes, pointers moved by the same distance |
| EsiSplit.TrimmedShift | ngx_esi_parser.c:113-140 | trimming the same bytes further on in a buffer gives the same span moved by the same distance, holding the same text |
| EsiSplit.CarryOverSim | ngx_esi_parser.c:1836-1873 | the carry-over keeps related states related, and keeps the longer overflow buffer with the shorter one at its end |
| EchoCapacity.Concat | ngx_esi_parser.c:95-108 | `concat` writes out of bounds exactly when the index reaches neither the recorded capacity nor the real one; a sound buffer never does |
| EchoCapacity.CarryOverAsWritten | ngx_esi_parser.c:1849-1854 | the carry-over as written sets the recorded capacity to the overflow size; the real echo buffer stays as it was |
| EchoCapacity.GrownRecordOverflows | ngx_esi_parser.c:1849-1854 | a 1024-byte echo buffer whose recorded capacity becomes 5000 is written at index 1024 |
| EchoCapacity.StagingStaysInBounds | ngx_esi_parser.c:95-108 | while the recorded capacity is the real one, any number of `concat` calls stays in bounds |
| NgxEsiParser.EsiParser.constructor | ngx_esi_parser.c:221-248 | the new object's state is `EsiScan.New`, with fresh echo and output buffers |
| NgxEsiParser.EsiParser.Init | ngx_esi_parser.c:264-275 | the object's state becomes `EsiScan.Init` of the old one |
| NgxEsiParser.EsiParser.FlushOutput | ngx_esi_parser.c:49-56 | the array code does what `EsiScan.FlushOutput` describes |
| NgxEsiParser.EsiParser.EchoChar | ngx_esi_parser.c:60-67 | the array code does what `EsiScan.EchoChar` describes |
| NgxEsiParser.EsiParser.EchoBuffer | ngx_esi_parser.c:72-80 | the loop echoes the echo buffer's bytes in order |
| NgxEsiParser.EsiParser.ConcatToEchobuffer | ngx_esi_parser.c:95-108 | growing and writing the echo array does what `EsiScan.ConcatToEchobuffer` describes |
| NgxEsiParser.EsiParser.Grow | ngx_esi_parser.c:99-105 | `realloc` to twice the capacity keeps the held bytes |
| NgxEsiParser.EsiParser.EchoStep | ngx_esi_parser.c:1305-1331 | the switch does what `EsiScan.EchoStep` describes |
| NgxEsiParser.EsiParser.NoMatch | ngx_esi_parser.c:1309-1319 | the `case 0` branch on the object is `EsiScan.EchoStep` into state 0: held bytes and the byte are let through unless the previous state was 12 or 7, and the echo buffer is cleared |
| NgxEsiParser.EsiParser.EndTag | ngx_esi_parser.c:1676-1719 | `f2` on the object is `EsiScan.EndTagAction` |
| NgxEsiParser.EsiParser.TagName | ngx_esi_parser.c:1395-1427 | `f3` on the object is `EsiScan.TagNameAction` |
| NgxEsiParser.EsiParser.StartTagNoAttrs | ngx_esi_parser.c:1627-1675 | `f4` on the object is `EsiScan.StartTagNoAttrsAction` |
| NgxEsiParser.EsiParser.StartTag | ngx_esi_parser.c:1481-1531 | `f5` on the object is `EsiScan.StartTagAction` |
| NgxEsiParser.EsiParser.AttrKey | ngx_esi_parser.c:1532-1571 | `f6` on the object is `EsiScan.AttrKeyAction` |
| NgxEsiParser.EsiParser.AttrValue | ngx_esi_parser.c:1572-1626 | `f7`/`f11` on the object is `EsiScan.AttrValueAction` |
| NgxEsiParser.EsiParser.EmptyTag | ngx_esi_parser.c:1428-1480 | `f8` on the object is `EsiScan.EmptyTagAction` |
| NgxEsiParser.EsiParser.ApplyAction | ngx_esi_parser.c:1305-1790 | the action a transition names, run on the object |
| NgxEsiParser.EsiParser.ExecuteByte | ngx_esi_parser.c:1191-1303 | one transition on the object is `EsiScan.Step` |
| NgxEsiParser.EsiParser.ScanForStart | ngx_esi_parser.c:289-329 | the loop computes `EsiScan.ScanForStart` |
| NgxEsiParser.EsiParser.EchoChunk | ngx_esi_parser.c:348-356 | the bypass loop echoes the whole chunk |
| NgxEsiParser.EsiParser.Prologue | ngx_esi_parser.c:359-386 | the prologue on the object is `EsiScan.Resume`, and it scans from the returned position |
| NgxEsiParser.EsiParser.RunLoop | ngx_esi_parser.c:393-1303 | the scan loop on the object is `EsiScan.Run` |
| NgxEsiParser.EsiParser.Epilogue | ngx_esi_parser.c:1836-1873 | the end of the call is `EsiScan.CarryOver` |
| NgxEsiParser.EsiParser.Execute | ngx_esi_parser.c:337-1876 | a whole call is `EsiScan.Execute` and returns the new `cs` |
| NgxEsiParser.EsiParser.Finish | ngx_esi_parser.c:1877-1881 | `esi_parser_finish` is `EsiScan.Finish` and returns 0 |
| LegacyScan.EchoChar | parser.c:47-50 | one output call per byte, delivering exactly that byte |
| LegacyScan.EchoBuffer | parser.c:55-59 | one output call delivering the whole echo buffer |
| LegacyScan.ConcatToEchobuffer | parser.c:74-87 | the byte is appended; the capacity doubles exactly when the buffer is full; it stays large enough |
| LegacyScan.EchoStep | parser.c:4736-4762 | the old revision's echo step: the same bytes are let through as `LetThrough` says; entering 0 makes one call, or two when bytes are held; nothing is sent after state 12 or 7 |
| LegacyScan.EndTagAction | parser.c:5084-5125 | the end-tag handler gets the trimmed name after `</`, with no flush; `tag_text` is kept; nothing is delivered |
| LegacyScan.TagNameAction | parser.c:4826-4858 | `tag_text` runs from after `<` up to the current byte |
| LegacyScan.StartTagNoAttrsAction | parser.c:5042-5083 | the start-tag handler gets the trimmed name and no attributes; the attribute list is left as it is |
| LegacyScan.StartTagAction | parser.c:4904-4946 | the handler gets the trimmed tag text and the attributes collected, which are kept |
| LegacyScan.AttrKeyAction | parser.c:4947-4986 | `attr_key` is the trimmed span from `mark` |
| LegacyScan.AttrValueAction | parser.c:4987-5041 | one attribute is appended from the key and the trimmed value, both NUL-terminated |
| LegacyScan.EmptyTagAction | parser.c:4859-4903 | the start-tag handler and then the end-tag handler get the same name |
| LegacyScan.ApplyAction | parser.c:4763-5200 | no action delivers output; calls and attributes only grow; the state, the overflow and the capacity are untouched |
| LegacyScan.AddsCalls | parser.c:4763-5200 | tag-handler calls deliver no bytes |
| LegacyScan.Step | parser.c:4309-4735 | for any table, a step keeps the echo buffer within capacity, leaves the overflow alone, only appends calls and attributes, and delivers exactly what `LetThrough` says |
| LegacyScan.NullTagTextFaults | parser.c:4904-4946 | completing a tag with a NULL `tag_text` faults |
| LegacyScan.Run | parser.c:4309-4735 | the scan loop keeps the same guarantees to the end of the buffer |
| LegacyScan.ScanBuffer | parser.c:259-289 | the buffer scanned is the overflow buffer followed by the chunk |
| LegacyScan.Resume | parser.c:259-289 | the prologue appends the chunk to the overflow buffer and sets a null `mark` to the first new byte |
| LegacyScan.CarryOver | parser.c:5229-5262 | the same carry-over as the nginx revision; the echo capacity is not touched |
| LegacyScan.Execute | parser.c:251-5263 | a call leaves the scanner at rest and an empty chunk changes nothing; calls and attributes only grow; the overflow buffer is kept exactly outside 309 and 0 and then holds everything since the tag began |
| LegacyScan.Init | parser.c:224-235 | `cs` and `prev_state` become 309 |
| LegacyScan.SameBytesLetThrough | parser.c:4736-4762 | both revisions' echo steps let through the same bytes |
| LegacyParser.Parser.constructor | parser.c:187-208 | start state 309, no mark, no overflow, an empty echo buffer of 1024 bytes, no attributes; the fields `new` leaves unset are parameters |
| LegacyParser.Parser.Init | parser.c:224-235 | the object's state becomes `LegacyScan.Init` of the old one |
| LegacyParser.Parser.EchoChar | parser.c:47-50 | one output call with the byte |
| LegacyParser.Parser.EchoBuffer | parser.c:55-59 | one output call with the echo array's bytes |
| LegacyParser.Parser.ConcatToEchobuffer | parser.c:74-87 | the array code does what `LegacyScan.ConcatToEchobuffer` describes |
| LegacyParser.Parser.Grow | parser.c:78-84 | `realloc` to twice the capacity keeps the held bytes |
| LegacyParser.Parser.EchoStep | parser.c:4736-4762 | the switch does what `LegacyScan.EchoStep` describes |
| LegacyParser.Parser.NoMatch | parser.c:4740-4751 | the `case 0` branch on the object is `LegacyScan.EchoStep` into state 0 |
| LegacyParser.Parser.EndTag | parser.c:5084-5125 | `f2` on the object is `LegacyScan.EndTagAction` |
| LegacyParser.Parser.TagName | parser.c:4826-4858 | `f3` on the object is `LegacyScan.TagNameAction` |
| LegacyParser.Parser.StartTagNoAttrs | parser.c:5042-5083 | `f4` on the object is `LegacyScan.StartTagNoAttrsAction` |
| LegacyParser.Parser.StartTag | parser.c:4904-4946 | `f5` on the object is `LegacyScan.StartTagAction` |
| LegacyParser.Parser.AttrKey | parser.c:4947-4986 | `f6` on the object is `LegacyScan.AttrKeyAction` |
| LegacyParser.Parser.AttrValue | parser.c:4987-5041 | `f7`/`f10` on the object is `LegacyScan.AttrValueAction` |
| LegacyParser.Parser.EmptyTag | parser.c:4859-4903 | `f8` on the object is `LegacyScan.EmptyTagAction` |
| LegacyParser.Parser.ApplyAction | parser.c:4763-5200 | the action a transition names, run on the object |
| LegacyParser.Parser.ExecuteByte | parser.c:4309-4735 | one transition on the object is `LegacyScan.Step` |
| LegacyParser.Parser.Prologue | parser.c:259-289 | the prologue on the object is `LegacyScan.Resume` |
| LegacyParser.Parser.RunLoop | parser.c:4309-4735 | the scan loop on the object is `LegacyScan.Run` |
| LegacyParser.Parser.Epilogue | parser.c:5229-5262 | the end of the call is `LegacyScan.CarryOver` |
| LegacyParser.Parser.Execute | parser.c:251-5263 | a whole call is `LegacyScan.Execute` and returns the new `cs` |
| LegacyParser.Parser.Finish | parser.c:5264-5270 | returns 0 and changes nothing: neither buffer is flushed |
| EsiTag.ESITag.New | ngx_esi_tag.c:4-12 | a new tag has the given type, depth 0 and no next tag |
| EsiTag.Debug | ngx_esi_tag.c:39-70 | the line printed is `tag:(NULL)` exactly for a null tag, the tag's name for a known type, and `unknown esi type` otherwise |
| EsiTag.Free | ngx_esi_tag.c:13-25 | the tags after the given one are freed in list order, then the tag itself |
| EsiTag.Close | ngx_esi_tag.c:32-37 | prints `close tag: ` followed by the tag's name, or by `unknown esi type` for `ESI_NONE`, then frees as `Free` does |
| EsiTag.Find | ngx_esi_tag.c:81-93 | the first position at or after `from` that holds the type, or the length when there is none |
| EsiTag.SeekChild | ngx_esi_tag.c:76-93 | the search stops at the first tag after the given one with the type, with `prev` the tag before it |
| EsiTag.CloseChildren | ngx_esi_tag.c:72-94 | the list is cut before the first such tag, which is freed with everything after it; with none, nothing changes; the first tag is never examined |
| EsiFilter.StrNCmpZeroIsPrefix | ngx_http_esi_filter_module.c:307 | `strncmp(literal, name, length) == 0` holds exactly when the name is a prefix of the literal |
| EsiFilter.StrNCmpZero | ngx_http_esi_filter_module.c:307 | `strncmp(s1, s2, n) == 0` holds when the first `n` bytes agree; when it holds and none of the first `n` bytes of `s2` is NUL, they agree |
| EsiFilter.NamesIsPrefix | ngx_http_esi_filter_module.c:307-327 | each test of the chain accepts exactly the prefixes of its name |
| EsiFilter.RecognisePrefix | ngx_http_esi_filter_module.c:307-332 | the chain picks the first name in source order of which the tag name is a prefix, or none |
| EsiFilter.RecogniseFrom | ngx_http_esi_filter_module.c:307-332 | a type the chain of comparisons picks is one whose comparison passes |
| EsiFilter.Recognise | ngx_http_esi_filter_module.c:307-332 | a name without NUL selects the first type, in source order, of whose name it is a prefix, and none when there is no such type |
| EsiFilter.RecogniseNames | ngx_http_esi_filter_module.c:307-327 | each full tag name selects its own type |
| EsiFilter.RecogniseAbbreviations | ngx_http_esi_filter_module.c:307-327 | the empty name selects `esi:try` and `esi:in` selects `esi:include` |
| EsiFilter.ClosedTruncates | ngx_http_esi_filter_module.c:348-420 | closing only shortens the list of open tags, and the type closed is no longer open |
| EsiFilter.OpenThenClose | ngx_http_esi_filter_module.c:301-420 | opening a tag whose type is not open and then closing it gives back the list of open tags |
| EsiFilter.CloseTwice | ngx_http_esi_filter_module.c:348-420 | closing the same name twice is closing it once |
| EsiFilter.EsiCtx.Found | ngx_http_esi_filter_module.c:275-299 | the filter's new context has no tags and an empty chain |
| EsiFilter.EsiCtx.StartTag | ngx_http_esi_filter_module.c:301-346 | a recognised name appends a fresh tag of that type at the end of the list and makes it the open tag; any other name changes nothing |
| EsiFilter.EsiCtx.EndTag | ngx_http_esi_filter_module.c:348-420 | with no root tag or an unknown name nothing changes; a name of the root's type closes every tag; otherwise the list is cut before the first later tag of that type |
| EsiFilter.EsiCtx.Append | ngx_http_esi_filter_module.c:333-340 | the walk to the last tag and the link append the tag to the list |
| EsiFilter.EsiCtx.CloseRoot | ngx_http_esi_filter_module.c:354-356 | closing the root leaves no tags and no open tag |
| EsiFilter.EsiCtx.CloseLater | ngx_http_esi_filter_module.c:358-360 | the list is cut before the first later tag of the type |
| EsiFilter.EsiCtx.Output | ngx_http_esi_filter_module.c:422-440 | with a root and an open tag the output goes to the open tag's buffer, otherwise to a new buffer from the pool; a buffer obtained is appended to the chain and counted |
| EsiFilter.LowerAll | ngx_http_esi_filter_module.c:263-264 | folds every byte to lower case |
| EsiFilter.StrNCaseCmpZero | ngx_http_esi_filter_module.c:264-265 | `ngx_strncasecmp(s1, s2, n) == 0` holds when the first `n` bytes agree up to case; when it holds and none of the first `n` bytes of `s2` is NUL, they agree up to case |
| EsiFilter.TypeMatches | ngx_http_esi_filter_module.c:263-265 | for a configured type without NUL: it matches exactly when the content type is at least as long and begins with the type, ignoring case |
| EsiFilter.TypeMatchesIsPrefix | ngx_http_esi_filter_module.c:263-264 | a configured type matches exactly when it is a case-insensitive prefix of the content type |
| EsiFilter.Selects | ngx_http_esi_filter_module.c:252-272 | a response is filtered exactly when the filter is on, there is a content type, the length is not 0, and some configured type matches |
| EsiFilter.CreateLocConf | ngx_http_esi_filter_module.c:177-200 | every setting is unset |
| EsiFilter.MergeLocConf | ngx_http_esi_filter_module.c:203-240 | after merging every setting is present |
| EsiFilter.MergeDefaults | ngx_http_esi_filter_module.c:210-237 | with nothing configured: off, errors not silenced, chunk 1024, depth 256, types `text/html` |
| EsiFilter.MergeInherits | ngx_http_esi_filter_module.c:210-237 | an unconfigured location inherits its parent; a location's own setting is never overridden |
| EsiFilter.MergeIdempotent | ngx_http_esi_filter_module.c:210-237 | merging twice with the same parent is merging once |

## Left out

- The old revision's generated table (`parser.c`, about 4000 lines of `switch ( cs )`) is a
  parameter of type `LegacyScan.Table`. What is proved about the old scanner holds for every
  table.
- The nginx revision's table is modelled in full, in `EsiMachine`.
- Handler function pointers and `user_data` are left out. Each handler call is recorded as a
  `Call` value, and the default callbacks, which do nothing, are not modelled.
- Console output is left out: `printf`, `debug_string`, the `esi_tag_start` message and the debug
  lines `esi_tag_close_children` prints. `EsiTag.Close` returns the one line it prints.
- `esi_tag_start`, `esi_tag_buffer` and `esi_vars_filter` are stubs that do nothing.
- `ngx_esi_tag.h` declares `esi_tag_buffer` as returning `ngx_buf_t *`, but its definition in
  `ngx_esi_tag.c` returns `void`. The filter uses the result, so the buffer it yields is a
  parameter of `EsiFilter.EsiCtx.Output`.
- `ngx_esi_tag.h` declares `esi_tag_close_children` as returning `ESITag *`, but its definition
  returns `void`. `esi_end_tag` stores the result as the open tag, so `EsiFilter.EsiCtx.EndTag`
  takes that value as a parameter.
- The tag's `ctx` field, which `esi_tag_new` never sets, and the `chain` field it sets but the
  struct does not declare are left out. The filter's `ngx_chain_t` list is a sequence of buffers,
  and pool allocation is a flag.
- The body filter, the `esi_types` directive parser and module registration are not part of this
  model. The same goes for the copy of the handlers inside `#if 0` (lines 491-1067 of
  `ngx_http_esi_filter_module.c`).
- Memory is not modelled: allocation failure, `esi_attribute_free`, `esi_parser_free` and the
  freeing of tags are left out. Freed tags are reported as a sequence.
- The `data == NULL` check of `esi_parser_execute` is left out, because a chunk is always a
  sequence.
- EsiScan.ComputeOffset: defined only for pointers that are null or lie inside the buffer. The
  source calls `compute_offset` on all four pointers unconditionally, in the prologue
  (`ngx_esi_parser.c:362-365`) and in the epilogue (`ngx_esi_parser.c:1843-1846`). For a pointer
  left over from an earlier chunk, which the model marks `Dangling`, that offset is meaningless,
  and so is the pointer rebuilt from it. The model computes no such offset: the pointer stays
  `Dangling`, and the invariants show it is never read. `EsiScan.Resume` and `EsiScan.CarryOver`
  do not call `ComputeOffset` or `Rebase`; they keep each offset as it is, which is the round
  trip `ComputeOffset` states for null and in-buffer pointers.
- `ESI_OUTPUT_BUFFER_SIZE` is defined in no file of the model, so 1024 is assumed.
- Fields that `esi_parser_new` leaves uninitialised are parameters of the constructors:
  `prev_state` and the span lengths in the nginx revision, plus the span pointers in the old one.
- A read through a NULL, freed or uninitialised pointer is recorded as `fault`. After a fault the
  scanner does nothing more. The model does not say what the process would do then.
- Integer widths are not modelled: offsets, lengths and `echobuffer_allocated` are unbounded.
  The doubling of the echo capacity cannot overflow in the model.
- EsiSplit.ExecuteSplit: split and unsplit feeding are not claimed to agree on
  `echobuffer_allocated`, nor on the offsets of pointers or the contents of the overflow buffer.
  After a call that ends in 0 or the start state, the next chunk is scanned on its own, so its
  pointers sit at smaller offsets and the overflow buffer lacks the earlier bytes.
  `EsiSplit.Sim` states how the two relate.
- EsiFilter.MergeLocConf: the `NGX_CONF_ERROR` returns on allocation failure are not modelled.

## Findings

| source | as written | input that shows it | evidently intended | confidence | as-written member | corrected member |
|---|---|---|---|---|---|---|
| ngx_esi_parser.c:1849-1854 | when a call ends inside a tag and there is no overflow buffer yet, `echobuffer_allocated` is set to the overflow buffer's size; the echo buffer itself is not reallocated, so the recorded capacity no longer matches it | a first chunk of 5000 bytes that ends inside a tag with 1024 bytes held in the echo buffer sets the recorded capacity of the 1024-byte echo buffer to 5000, and the next held byte is written at index 1024 | the overflow size kept in a field of its own (the old revision's `parser.c:5229-5262` does not touch `echobuffer_allocated`), so that `concat` always stays in bounds | not executed | EchoCapacity.GrownRecordOverflows | EchoCapacity.StagingStaysInBounds |
