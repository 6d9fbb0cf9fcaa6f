/** The scanning automaton of the nginx revision of the ESI parser: the 80 states of the generated
    `switch ( cs )` of `esi_parser_execute` and the action each transition runs.

    States, as the generated table lays them out:
      75        start state; 0 the state for text that is not (yet) part of a tag;
      1..12     `<esi:name` (via 8..12) and `</esi:name` (via 2..7);
      13..16    attributes of a start tag, 74 after its `/`;
      17..73    inside a quoted attribute value, where a nested `<esi:...>` is recognised as well;
      76..79    just after a tag that was completed inside a value (76..78) or at top level (79). */
module EsiMachine {
  import opened Bytes

  /** The actions of the generated code.  `f0` and `f10` only run the common per-byte step;
      `f1` and `f12` also set `mark`; `f7` and `f11` both complete an attribute value (the extra
      `finish` action they and `f10`, `f12` carry is empty). */
  datatype Action =
    | Echo             // f0, f10
    | EchoMark         // f1, f12: mark = p
    | EndTag           // f2: `</esi:name>` complete
    | TagName          // f3: tag name ends at white space
    | StartTagNoAttrs  // f4: `<esi:name>` complete, no attributes
    | StartTag         // f5: `<esi:name attrs>` complete
    | AttrKey          // f6: attribute key complete
    | AttrValue        // f7, f11: attribute value complete
    | EmptyTag         // f8: `<esi:name attrs/>` complete

  /** One transition: the state entered and the action run on the way. */
  datatype Move = Move(target: int, action: Action)

  const ESI_START := 75
  const STATE_COUNT := 80

  /** Actions after which `mark` holds the position of the current byte. */
  predicate SetsMark(a: Action) {
    a != Echo
  }

  /** How many bytes before the current position `mark` must lie for the action to compute its
      span: `f2` skips the two bytes `</`, `f3` the byte `<`, the others start at `mark`. */
  function MarkNeed(a: Action): nat {
    match a
    case EndTag => 2
    case TagName | StartTagNoAttrs | AttrKey | AttrValue => 1
    case _ => 0
  }

  /** A lower bound on the distance from `mark` to the next byte in each state; 0 means `mark` is
      not known to point into the current buffer. */
  function MarkLag(cs: int): nat {
    if cs == 0 || cs == ESI_START then 0
    else if cs == 1 || cs == 13 || cs == 16 || cs == 17 || cs == 18 || cs == 21 || 24 <= cs <= 28
         || cs == 43 || cs == 45 || cs == 48 || cs == 51 || 76 <= cs <= 79 then 1
    else 2
  }

  /** States in which `tag_text` is either null or the span of a tag name in the current buffer:
      every state except the start state, 0 and the states of the tag prefix. */
  predicate TagTracked(cs: int) {
    !(0 <= cs <= 12 || cs == ESI_START)
  }

  /** States in which `attr_key` is the span of the last attribute key. */
  predicate KeyTracked(cs: int) {
    !(0 <= cs <= 15 || cs == 74 || cs == ESI_START || cs == 79)
  }

  /** Actions that set `tag_text`, to a span (`f2`, `f3`, `f4`) or to null (`f5`, `f8`). */
  predicate SetsTag(a: Action) {
    a.EndTag? || a.TagName? || a.StartTagNoAttrs? || a.StartTag? || a.EmptyTag?
  }

  /** The states reached from 0 by `<` followed by bytes among `/`, `e`, `s`, `i`, `<` only. */
  predicate IsPrefixState(cs: int) {
    1 <= cs <= 5 || 8 <= cs <= 10
  }

  /** The bytes `esi_parser_scan_for_start` lets a start sequence continue with, `:` aside. */
  predicate IsPrefixByte(b: Byte) {
    b == SLASH || b == LOWER_E || b == LOWER_S || b == LOWER_I
  }

  /** The facts the actions rely on, for the transition `m` taken from `cs`: the target is a state
      and never the start state; `mark` was set far enough back for the action's span and stays
      set in every state that needs it; `tag_text` is captured (or deliberately null) in every
      state whose actions read it, and `attr_key` in every state that completes a value. */
  predicate KeepsSpans(cs: int, m: Move) {
    && 0 <= m.target < STATE_COUNT && m.target != ESI_START
    && MarkLag(cs) >= MarkNeed(m.action)
    && (SetsMark(m.action) ==> MarkLag(m.target) <= 1)
    && (!SetsMark(m.action) ==> m.target == 0 || (MarkLag(cs) >= 1 && MarkLag(m.target) <= MarkLag(cs) + 1))
    && (TagTracked(m.target) ==> SetsTag(m.action) || TagTracked(cs))
    && ((m.action == StartTag || m.action == EmptyTag) ==> TagTracked(cs))
    && (KeyTracked(m.target) ==> m.action == AttrKey || KeyTracked(cs))
    && (m.action == AttrValue ==> KeyTracked(cs))
  }

  /** From 0 and from the states of a tag prefix, a byte other than `:` is only staged or echoed:
      `<` (re)starts a prefix, a prefix byte may continue it, anything else returns to 0. */
  predicate PrefixOnlyStages(cs: int, b: Byte, m: Move) {
    && (cs == 0 ==> m == (if b == LT then Move(1, EchoMark) else Move(0, Echo)))
    && (IsPrefixState(cs) && b != COLON ==>
          if b == LT then m == Move(1, EchoMark)
          else if IsPrefixByte(b) then m.action == Echo && (m.target == 0 || IsPrefixState(m.target))
          else m == Move(0, Echo))
  }

  /** The transition taken from state `cs` on byte `b`. */
  function Transition(cs: int, b: Byte): (m: Move)
    requires 0 <= cs < STATE_COUNT
    ensures KeepsSpans(cs, m) && PrefixOnlyStages(cs, b, m)
  {
    if cs <= 12 then TagPrefix(cs, b)
    else if cs <= 16 || cs == 74 || cs == 79 then AttributeList(cs, b)
    else if cs <= 24 || cs == 78 then DoubleQuoted(cs, b)
    else if 63 <= cs <= 73 then DoubleQuotedNested(cs, b)
    else if cs == 25 || 45 <= cs <= 52 || cs == 77 then NestedQuoted(cs, b)
    else if 53 <= cs <= 62 then NestedQuotedNested(cs, b)
    else if cs <= 35 || cs == 76 then SingleQuoted(cs, b)
    else if cs <= 44 then SingleQuotedNested(cs, b)
    else // 75, the start state
      if b == LT then Move(1, EchoMark) else Move(0, Echo)
  }

  /** State 0 and the states of `<esi:name` and `</esi:name`. */
  function TagPrefix(cs: int, b: Byte): (m: Move)
    requires 0 <= cs <= 12
    ensures KeepsSpans(cs, m) && PrefixOnlyStages(cs, b, m)
  {
    match cs
    case 0 =>
      if b == LT then Move(1, EchoMark)
      else Move(0, Echo)
    case 1 =>
      if b == SLASH then Move(2, Echo)
      else if b == LT then Move(1, EchoMark)
      else if b == LOWER_E then Move(8, Echo)
      else Move(0, Echo)
    case 2 =>
      if b == LT then Move(1, EchoMark)
      else if b == LOWER_E then Move(3, Echo)
      else Move(0, Echo)
    case 3 =>
      if b == LT then Move(1, EchoMark)
      else if b == LOWER_S then Move(4, Echo)
      else Move(0, Echo)
    case 4 =>
      if b == LT then Move(1, EchoMark)
      else if b == LOWER_I then Move(5, Echo)
      else Move(0, Echo)
    case 5 =>
      if b == COLON then Move(6, Echo)
      else if b == LT then Move(1, EchoMark)
      else Move(0, Echo)
    case 6 =>
      if b == LT then Move(1, EchoMark)
      else if IsLower(b) then Move(7, Echo)
      else Move(0, Echo)
    case 7 =>
      if b == LT then Move(1, EchoMark)
      else if b == GT then Move(0, EndTag)
      else if IsLower(b) then Move(7, Echo)
      else Move(0, Echo)
    case 8 =>
      if b == LT then Move(1, EchoMark)
      else if b == LOWER_S then Move(9, Echo)
      else Move(0, Echo)
    case 9 =>
      if b == LT then Move(1, EchoMark)
      else if b == LOWER_I then Move(10, Echo)
      else Move(0, Echo)
    case 10 =>
      if b == COLON then Move(11, Echo)
      else if b == LT then Move(1, EchoMark)
      else Move(0, Echo)
    case 11 =>
      if b == LT then Move(1, EchoMark)
      else if IsLower(b) then Move(12, Echo)
      else Move(0, Echo)
    case _ =>  // 12
      if b == LT then Move(1, EchoMark)
      else if b == GT then Move(79, StartTagNoAttrs)
      else if IsSpace(b) then Move(13, TagName)
      else if IsLower(b) then Move(12, Echo)
      else Move(0, Echo)
  }

  /** The attribute list of a start tag at top level, the `/` of `/>`, and state 79 after a tag. */
  function AttributeList(cs: int, b: Byte): (m: Move)
    requires 13 <= cs <= 16 || cs == 74 || cs == 79
    ensures KeepsSpans(cs, m) && PrefixOnlyStages(cs, b, m)
  {
    match cs
    case 13 =>
      if b == SLASH then Move(74, Echo)
      else if b == LT then Move(1, EchoMark)
      else if b == GT then Move(79, StartTag)
      else if IsSpace(b) then Move(14, Echo)
      else if IsKeyStart(b) then Move(15, Echo)
      else Move(0, Echo)
    case 14 =>
      if b == SLASH then Move(74, Echo)
      else if b == LT then Move(1, EchoMark)
      else if IsSpace(b) then Move(14, Echo)
      else if IsKeyStart(b) then Move(15, Echo)
      else Move(0, Echo)
    case 15 =>
      if b == LT then Move(1, EchoMark)
      else if b == EQ then Move(16, AttrKey)
      else if IsKeyChar(b) then Move(15, Echo)
      else Move(0, Echo)
    case 16 =>
      if b == DQUOTE then Move(17, Echo)
      else if b == SQUOTE then Move(27, Echo)
      else if b == LT then Move(1, EchoMark)
      else if IsSpace(b) then Move(16, Echo)
      else Move(0, Echo)
    case 74 =>
      if b == LT then Move(1, EchoMark)
      else if b == GT then Move(79, EmptyTag)
      else Move(0, Echo)
    case _ =>  // 79
      if b == LT then Move(1, EchoMark)
      else Move(0, Echo)
  }

  /** Inside a double-quoted attribute value (17..20) and the attributes of a tag nested in it
      (21..24); 78 follows a tag completed there. */
  function DoubleQuoted(cs: int, b: Byte): (m: Move)
    requires 17 <= cs <= 24 || cs == 78
    ensures KeepsSpans(cs, m) && PrefixOnlyStages(cs, b, m)
  {
    match cs
    case 17 =>
      if b == DQUOTE then Move(13, AttrValue)
      else if b == LT then Move(18, EchoMark)
      else if b == BACKSLASH then Move(20, Echo)
      else Move(17, Echo)
    case 18 =>
      if b == DQUOTE then Move(13, AttrValue)
      else if b == SLASH then Move(19, Echo)
      else if b == LT then Move(18, EchoMark)
      else if b == BACKSLASH then Move(20, Echo)
      else if b == LOWER_E then Move(69, Echo)
      else Move(17, Echo)
    case 19 =>
      if b == DQUOTE then Move(13, AttrValue)
      else if b == LT then Move(18, EchoMark)
      else if b == BACKSLASH then Move(20, Echo)
      else if b == LOWER_E then Move(64, Echo)
      else Move(17, Echo)
    case 20 =>
      if b == DQUOTE then Move(21, AttrValue)
      else if b == LT then Move(18, EchoMark)
      else if b == BACKSLASH then Move(20, Echo)
      else Move(17, Echo)
    case 21 =>
      if b == DQUOTE then Move(13, AttrValue)
      else if b == SLASH then Move(63, Echo)
      else if b == LT then Move(18, EchoMark)
      else if b == GT then Move(78, StartTag)
      else if b == BACKSLASH then Move(20, Echo)
      else if IsSpace(b) then Move(22, Echo)
      else if IsKeyStart(b) then Move(23, Echo)
      else Move(17, Echo)
    case 22 =>
      if b == DQUOTE then Move(13, AttrValue)
      else if b == SLASH then Move(63, Echo)
      else if b == LT then Move(18, EchoMark)
      else if b == BACKSLASH then Move(20, Echo)
      else if IsSpace(b) then Move(22, Echo)
      else if IsKeyStart(b) then Move(23, Echo)
      else Move(17, Echo)
    case 23 =>
      if b == DQUOTE then Move(13, AttrValue)
      else if b == LT then Move(18, EchoMark)
      else if b == EQ then Move(24, AttrKey)
      else if b == BACKSLASH then Move(20, Echo)
      else if IsKeyChar(b) then Move(23, Echo)
      else Move(17, Echo)
    case 24 =>
      if b == DQUOTE then Move(21, AttrValue)
      else if b == SQUOTE then Move(25, Echo)
      else if b == LT then Move(18, EchoMark)
      else if b == BACKSLASH then Move(20, Echo)
      else if IsSpace(b) then Move(24, Echo)
      else Move(17, Echo)
    case _ =>  // 78
      if b == DQUOTE then Move(13, AttrValue)
      else if b == LT then Move(18, EchoMark)
      else if b == BACKSLASH then Move(20, Echo)
      else Move(17, Echo)
  }

  /** Inside a double-quoted attribute value: the `/` of a nested `/>` (63), a nested `</esi:name`
      (64..68) or `<esi:name` (69..73). */
  function DoubleQuotedNested(cs: int, b: Byte): (m: Move)
    requires 63 <= cs <= 73
    ensures KeepsSpans(cs, m) && PrefixOnlyStages(cs, b, m)
  {
    match cs
    case 63 =>
      if b == DQUOTE then Move(13, AttrValue)
      else if b == LT then Move(18, EchoMark)
      else if b == GT then Move(78, EmptyTag)
      else if b == BACKSLASH then Move(20, Echo)
      else Move(17, Echo)
    case 64 =>
      if b == DQUOTE then Move(13, AttrValue)
      else if b == LT then Move(18, EchoMark)
      else if b == BACKSLASH then Move(20, Echo)
      else if b == LOWER_S then Move(65, Echo)
      else Move(17, Echo)
    case 65 =>
      if b == DQUOTE then Move(13, AttrValue)
      else if b == LT then Move(18, EchoMark)
      else if b == BACKSLASH then Move(20, Echo)
      else if b == LOWER_I then Move(66, Echo)
      else Move(17, Echo)
    case 66 =>
      if b == DQUOTE then Move(13, AttrValue)
      else if b == COLON then Move(67, Echo)
      else if b == LT then Move(18, EchoMark)
      else if b == BACKSLASH then Move(20, Echo)
      else Move(17, Echo)
    case 67 =>
      if b == DQUOTE then Move(13, AttrValue)
      else if b == LT then Move(18, EchoMark)
      else if b == BACKSLASH then Move(20, Echo)
      else if IsLower(b) then Move(68, Echo)
      else Move(17, Echo)
    case 68 =>
      if b == DQUOTE then Move(13, AttrValue)
      else if b == LT then Move(18, EchoMark)
      else if b == GT then Move(17, EndTag)
      else if b == BACKSLASH then Move(20, Echo)
      else if IsLower(b) then Move(68, Echo)
      else Move(17, Echo)
    case 69 =>
      if b == DQUOTE then Move(13, AttrValue)
      else if b == LT then Move(18, EchoMark)
      else if b == BACKSLASH then Move(20, Echo)
      else if b == LOWER_S then Move(70, Echo)
      else Move(17, Echo)
    case 70 =>
      if b == DQUOTE then Move(13, AttrValue)
      else if b == LT then Move(18, EchoMark)
      else if b == BACKSLASH then Move(20, Echo)
      else if b == LOWER_I then Move(71, Echo)
      else Move(17, Echo)
    case 71 =>
      if b == DQUOTE then Move(13, AttrValue)
      else if b == COLON then Move(72, Echo)
      else if b == LT then Move(18, EchoMark)
      else if b == BACKSLASH then Move(20, Echo)
      else Move(17, Echo)
    case 72 =>
      if b == DQUOTE then Move(13, AttrValue)
      else if b == LT then Move(18, EchoMark)
      else if b == BACKSLASH then Move(20, Echo)
      else if IsLower(b) then Move(73, Echo)
      else Move(17, Echo)
    case _ =>  // 73
      if b == DQUOTE then Move(13, AttrValue)
      else if b == LT then Move(18, EchoMark)
      else if b == GT then Move(78, StartTagNoAttrs)
      else if b == BACKSLASH then Move(20, Echo)
      else if IsSpace(b) then Move(21, TagName)
      else if IsLower(b) then Move(73, Echo)
      else Move(17, Echo)
  }

  /** Inside the quoted value of an attribute of a nested tag (25, 45..47) and the attributes of a
      tag nested in that (48..52); 77 follows a tag completed there. */
  function NestedQuoted(cs: int, b: Byte): (m: Move)
    requires cs == 25 || 45 <= cs <= 52 || cs == 77
    ensures KeepsSpans(cs, m) && PrefixOnlyStages(cs, b, m)
  {
    match cs
    case 25 =>
      if b == DQUOTE then Move(26, AttrValue)
      else if b == SQUOTE then Move(21, AttrValue)
      else if b == LT then Move(45, EchoMark)
      else if b == BACKSLASH then Move(47, Echo)
      else Move(25, Echo)
    case 45 =>
      if b == DQUOTE then Move(26, AttrValue)
      else if b == SQUOTE then Move(21, AttrValue)
      else if b == SLASH then Move(46, Echo)
      else if b == LT then Move(45, EchoMark)
      else if b == BACKSLASH then Move(47, Echo)
      else if b == LOWER_E then Move(58, Echo)
      else Move(25, Echo)
    case 46 =>
      if b == DQUOTE then Move(26, AttrValue)
      else if b == SQUOTE then Move(21, AttrValue)
      else if b == LT then Move(45, EchoMark)
      else if b == BACKSLASH then Move(47, Echo)
      else if b == LOWER_E then Move(53, Echo)
      else Move(25, Echo)
    case 47 =>
      if b == LT then Move(45, EchoMark)
      else if b == BACKSLASH then Move(47, Echo)
      else if (b == DQUOTE || b == SQUOTE) then Move(48, AttrValue)
      else Move(25, Echo)
    case 48 =>
      if b == DQUOTE then Move(26, AttrValue)
      else if b == SQUOTE then Move(21, AttrValue)
      else if b == SLASH then Move(52, Echo)
      else if b == LT then Move(45, EchoMark)
      else if b == GT then Move(77, StartTag)
      else if b == BACKSLASH then Move(47, Echo)
      else if IsSpace(b) then Move(49, Echo)
      else if IsKeyStart(b) then Move(50, Echo)
      else Move(25, Echo)
    case 49 =>
      if b == DQUOTE then Move(26, AttrValue)
      else if b == SQUOTE then Move(21, AttrValue)
      else if b == SLASH then Move(52, Echo)
      else if b == LT then Move(45, EchoMark)
      else if b == BACKSLASH then Move(47, Echo)
      else if IsSpace(b) then Move(49, Echo)
      else if IsKeyStart(b) then Move(50, Echo)
      else Move(25, Echo)
    case 50 =>
      if b == DQUOTE then Move(26, AttrValue)
      else if b == SQUOTE then Move(21, AttrValue)
      else if b == LT then Move(45, EchoMark)
      else if b == EQ then Move(51, AttrKey)
      else if b == BACKSLASH then Move(47, Echo)
      else if IsKeyChar(b) then Move(50, Echo)
      else Move(25, Echo)
    case 51 =>
      if b == LT then Move(45, EchoMark)
      else if b == BACKSLASH then Move(47, Echo)
      else if (b == DQUOTE || b == SQUOTE) then Move(48, AttrValue)
      else if IsSpace(b) then Move(51, Echo)
      else Move(25, Echo)
    case 52 =>
      if b == DQUOTE then Move(26, AttrValue)
      else if b == SQUOTE then Move(21, AttrValue)
      else if b == LT then Move(45, EchoMark)
      else if b == GT then Move(77, EmptyTag)
      else if b == BACKSLASH then Move(47, Echo)
      else Move(25, Echo)
    case _ =>  // 77
      if b == DQUOTE then Move(26, AttrValue)
      else if b == SQUOTE then Move(21, AttrValue)
      else if b == LT then Move(45, EchoMark)
      else if b == BACKSLASH then Move(47, Echo)
      else Move(25, Echo)
  }

  /** Inside the quoted value of an attribute of a nested tag: a further `</esi:name` (53..57) or
      `<esi:name` (58..62). */
  function NestedQuotedNested(cs: int, b: Byte): (m: Move)
    requires 53 <= cs <= 62
    ensures KeepsSpans(cs, m) && PrefixOnlyStages(cs, b, m)
  {
    match cs
    case 53 =>
      if b == DQUOTE then Move(26, AttrValue)
      else if b == SQUOTE then Move(21, AttrValue)
      else if b == LT then Move(45, EchoMark)
      else if b == BACKSLASH then Move(47, Echo)
      else if b == LOWER_S then Move(54, Echo)
      else Move(25, Echo)
    case 54 =>
      if b == DQUOTE then Move(26, AttrValue)
      else if b == SQUOTE then Move(21, AttrValue)
      else if b == LT then Move(45, EchoMark)
      else if b == BACKSLASH then Move(47, Echo)
      else if b == LOWER_I then Move(55, Echo)
      else Move(25, Echo)
    case 55 =>
      if b == DQUOTE then Move(26, AttrValue)
      else if b == SQUOTE then Move(21, AttrValue)
      else if b == COLON then Move(56, Echo)
      else if b == LT then Move(45, EchoMark)
      else if b == BACKSLASH then Move(47, Echo)
      else Move(25, Echo)
    case 56 =>
      if b == DQUOTE then Move(26, AttrValue)
      else if b == SQUOTE then Move(21, AttrValue)
      else if b == LT then Move(45, EchoMark)
      else if b == BACKSLASH then Move(47, Echo)
      else if IsLower(b) then Move(57, Echo)
      else Move(25, Echo)
    case 57 =>
      if b == DQUOTE then Move(26, AttrValue)
      else if b == SQUOTE then Move(21, AttrValue)
      else if b == LT then Move(45, EchoMark)
      else if b == GT then Move(25, EndTag)
      else if b == BACKSLASH then Move(47, Echo)
      else if IsLower(b) then Move(57, Echo)
      else Move(25, Echo)
    case 58 =>
      if b == DQUOTE then Move(26, AttrValue)
      else if b == SQUOTE then Move(21, AttrValue)
      else if b == LT then Move(45, EchoMark)
      else if b == BACKSLASH then Move(47, Echo)
      else if b == LOWER_S then Move(59, Echo)
      else Move(25, Echo)
    case 59 =>
      if b == DQUOTE then Move(26, AttrValue)
      else if b == SQUOTE then Move(21, AttrValue)
      else if b == LT then Move(45, EchoMark)
      else if b == BACKSLASH then Move(47, Echo)
      else if b == LOWER_I then Move(60, Echo)
      else Move(25, Echo)
    case 60 =>
      if b == DQUOTE then Move(26, AttrValue)
      else if b == SQUOTE then Move(21, AttrValue)
      else if b == COLON then Move(61, Echo)
      else if b == LT then Move(45, EchoMark)
      else if b == BACKSLASH then Move(47, Echo)
      else Move(25, Echo)
    case 61 =>
      if b == DQUOTE then Move(26, AttrValue)
      else if b == SQUOTE then Move(21, AttrValue)
      else if b == LT then Move(45, EchoMark)
      else if b == BACKSLASH then Move(47, Echo)
      else if IsLower(b) then Move(62, Echo)
      else Move(25, Echo)
    case _ =>  // 62
      if b == DQUOTE then Move(26, AttrValue)
      else if b == SQUOTE then Move(21, AttrValue)
      else if b == LT then Move(45, EchoMark)
      else if b == GT then Move(77, StartTagNoAttrs)
      else if b == BACKSLASH then Move(47, Echo)
      else if IsSpace(b) then Move(48, TagName)
      else if IsLower(b) then Move(62, Echo)
      else Move(25, Echo)
  }

  /** Inside a single-quoted attribute value (27..30), a nested `</esi:name` (31..35) and the
      attributes of a tag nested in it (26); 76 follows a tag completed there. */
  function SingleQuoted(cs: int, b: Byte): (m: Move)
    requires 26 <= cs <= 35 || cs == 76
    ensures KeepsSpans(cs, m) && PrefixOnlyStages(cs, b, m)
  {
    match cs
    case 26 =>
      if b == SQUOTE then Move(13, AttrValue)
      else if b == SLASH then Move(44, Echo)
      else if b == LT then Move(28, EchoMark)
      else if b == GT then Move(76, StartTag)
      else if b == BACKSLASH then Move(30, Echo)
      else if IsSpace(b) then Move(41, Echo)
      else if IsKeyStart(b) then Move(42, Echo)
      else Move(27, Echo)
    case 27 =>
      if b == SQUOTE then Move(13, AttrValue)
      else if b == LT then Move(28, EchoMark)
      else if b == BACKSLASH then Move(30, Echo)
      else Move(27, Echo)
    case 28 =>
      if b == SQUOTE then Move(13, AttrValue)
      else if b == SLASH then Move(29, Echo)
      else if b == LT then Move(28, EchoMark)
      else if b == BACKSLASH then Move(30, Echo)
      else if b == LOWER_E then Move(36, Echo)
      else Move(27, Echo)
    case 29 =>
      if b == SQUOTE then Move(13, AttrValue)
      else if b == LT then Move(28, EchoMark)
      else if b == BACKSLASH then Move(30, Echo)
      else if b == LOWER_E then Move(31, Echo)
      else Move(27, Echo)
    case 30 =>
      if b == SQUOTE then Move(26, AttrValue)
      else if b == LT then Move(28, EchoMark)
      else if b == BACKSLASH then Move(30, Echo)
      else Move(27, Echo)
    case 31 =>
      if b == SQUOTE then Move(13, AttrValue)
      else if b == LT then Move(28, EchoMark)
      else if b == BACKSLASH then Move(30, Echo)
      else if b == LOWER_S then Move(32, Echo)
      else Move(27, Echo)
    case 32 =>
      if b == SQUOTE then Move(13, AttrValue)
      else if b == LT then Move(28, EchoMark)
      else if b == BACKSLASH then Move(30, Echo)
      else if b == LOWER_I then Move(33, Echo)
      else Move(27, Echo)
    case 33 =>
      if b == SQUOTE then Move(13, AttrValue)
      else if b == COLON then Move(34, Echo)
      else if b == LT then Move(28, EchoMark)
      else if b == BACKSLASH then Move(30, Echo)
      else Move(27, Echo)
    case 34 =>
      if b == SQUOTE then Move(13, AttrValue)
      else if b == LT then Move(28, EchoMark)
      else if b == BACKSLASH then Move(30, Echo)
      else if IsLower(b) then Move(35, Echo)
      else Move(27, Echo)
    case 35 =>
      if b == SQUOTE then Move(13, AttrValue)
      else if b == LT then Move(28, EchoMark)
      else if b == GT then Move(27, EndTag)
      else if b == BACKSLASH then Move(30, Echo)
      else if IsLower(b) then Move(35, Echo)
      else Move(27, Echo)
    case _ =>  // 76
      if b == SQUOTE then Move(13, AttrValue)
      else if b == LT then Move(28, EchoMark)
      else if b == BACKSLASH then Move(30, Echo)
      else Move(27, Echo)
  }

  /** Inside a single-quoted attribute value: a nested `<esi:name` (36..40), its attributes (41..43)
      and the `/` of its `/>` (44). */
  function SingleQuotedNested(cs: int, b: Byte): (m: Move)
    requires 36 <= cs <= 44
    ensures KeepsSpans(cs, m) && PrefixOnlyStages(cs, b, m)
  {
    match cs
    case 36 =>
      if b == SQUOTE then Move(13, AttrValue)
      else if b == LT then Move(28, EchoMark)
      else if b == BACKSLASH then Move(30, Echo)
      else if b == LOWER_S then Move(37, Echo)
      else Move(27, Echo)
    case 37 =>
      if b == SQUOTE then Move(13, AttrValue)
      else if b == LT then Move(28, EchoMark)
      else if b == BACKSLASH then Move(30, Echo)
      else if b == LOWER_I then Move(38, Echo)
      else Move(27, Echo)
    case 38 =>
      if b == SQUOTE then Move(13, AttrValue)
      else if b == COLON then Move(39, Echo)
      else if b == LT then Move(28, EchoMark)
      else if b == BACKSLASH then Move(30, Echo)
      else Move(27, Echo)
    case 39 =>
      if b == SQUOTE then Move(13, AttrValue)
      else if b == LT then Move(28, EchoMark)
      else if b == BACKSLASH then Move(30, Echo)
      else if IsLower(b) then Move(40, Echo)
      else Move(27, Echo)
    case 40 =>
      if b == SQUOTE then Move(13, AttrValue)
      else if b == LT then Move(28, EchoMark)
      else if b == GT then Move(76, StartTagNoAttrs)
      else if b == BACKSLASH then Move(30, Echo)
      else if IsSpace(b) then Move(26, TagName)
      else if IsLower(b) then Move(40, Echo)
      else Move(27, Echo)
    case 41 =>
      if b == SQUOTE then Move(13, AttrValue)
      else if b == SLASH then Move(44, Echo)
      else if b == LT then Move(28, EchoMark)
      else if b == BACKSLASH then Move(30, Echo)
      else if IsSpace(b) then Move(41, Echo)
      else if IsKeyStart(b) then Move(42, Echo)
      else Move(27, Echo)
    case 42 =>
      if b == SQUOTE then Move(13, AttrValue)
      else if b == LT then Move(28, EchoMark)
      else if b == EQ then Move(43, AttrKey)
      else if b == BACKSLASH then Move(30, Echo)
      else if IsKeyChar(b) then Move(42, Echo)
      else Move(27, Echo)
    case 43 =>
      if b == DQUOTE then Move(25, Echo)
      else if b == SQUOTE then Move(26, AttrValue)
      else if b == LT then Move(28, EchoMark)
      else if b == BACKSLASH then Move(30, Echo)
      else if IsSpace(b) then Move(43, Echo)
      else Move(27, Echo)
    case _ =>  // 44
      if b == SQUOTE then Move(13, AttrValue)
      else if b == LT then Move(28, EchoMark)
      else if b == GT then Move(76, EmptyTag)
      else if b == BACKSLASH then Move(30, Echo)
      else Move(27, Echo)
  }
}
