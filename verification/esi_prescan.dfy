/** What `esi_parser_scan_for_start` finds, stated without its loop, and why skipping the
    automaton for a chunk in which it finds nothing changes nothing but the echo buffer's
    recorded capacity. */
module EsiPrescan {
  import opened Bytes
  import opened EsiMachine
  import opened EsiScan

  /** Only bytes among `/`, `e`, `s`, `i` lie strictly between positions `f` and `j`. */
  predicate PrefixRun(data: seq<Byte>, f: int, j: int)
    requires 0 <= f < j <= |data|
  {
    forall k :: f < k < j ==> IsPrefixByte(data[k])
  }

  /** A `<` at `f` followed by prefix bytes up to position `j`: the start of a start sequence
      that is still open at `j`. */
  predicate OpenRun(data: seq<Byte>, f: int, j: int) {
    0 <= f < j <= |data| && data[f] == LT && PrefixRun(data, f, j)
  }

  /** A complete start sequence: `<` at `f`, prefix bytes, `:` at `c`. */
  predicate StartSequence(data: seq<Byte>, f: int, c: int) {
    OpenRun(data, f, c) && c < |data| && data[c] == COLON
  }

  /** What the scan has seen before position `i`, with `f` and `s` its two variables: either
      no start sequence is open at `i` and both are -2, or one is open from `f` and `s` is the
      position of its last byte; and no start sequence was completed before `i`. */
  ghost predicate Scanned(data: seq<Byte>, i: int, f: int, s: int) {
    && 0 <= i <= |data|
    && ((f == -2 && s == -2 && forall g :: 0 <= g < i ==> !OpenRun(data, g, i))
        || (s == i - 1 && OpenRun(data, f, i)))
    && forall g, c :: StartSequence(data, g, c) ==> i <= c
  }

  /** The result of the scan from `i`: the `<` of the first start sequence to complete, or else
      the `<` of a start sequence still open at the end of the data, or else -1. */
  ghost predicate FindsStart(data: seq<Byte>, r: int) {
    && (r == -1 || (0 <= r < |data| && data[r] == LT))
    && ((exists g, c :: StartSequence(data, g, c)) ==>
          exists c :: StartSequence(data, r, c) && forall g', c' :: StartSequence(data, g', c') ==> c <= c')
    && ((forall g, c :: !StartSequence(data, g, c)) ==>
          (r == -1 <==> forall g :: !OpenRun(data, g, |data|)) && (r != -1 ==> OpenRun(data, r, |data|)))
  }

  /** A byte other than `<` cannot open a run, so no run is open after it unless one was open
      before it. */
  lemma ClosedStaysClosed(data: seq<Byte>, i: int, j: int)
    requires 0 <= i < |data| && j == i + 1 && data[i] != LT
    requires forall g :: 0 <= g < i ==> !OpenRun(data, g, i)
    ensures forall g :: 0 <= g < j ==> !OpenRun(data, g, j)
  {
    forall g | 0 <= g < j && OpenRun(data, g, j) ensures false {
      assert OpenRun(data, g, i);
    }
  }

  /** A byte that is neither `<` nor a prefix byte closes every run. */
  lemma BreakCloses(data: seq<Byte>, i: int, j: int)
    requires 0 <= i < |data| && j == i + 1 && data[i] != LT && !IsPrefixByte(data[i])
    ensures forall g :: 0 <= g < j ==> !OpenRun(data, g, j)
  {
  }

  lemma {:induction false} ScanFromFindsStart(data: seq<Byte>, i: int, f: int, s: int)
    requires Scanned(data, i, f, s)
    ensures FindsStart(data, ScanFrom(data, i, f, s))
    decreases |data| - i
  {
    if i == |data| {
      assert forall g, c :: !StartSequence(data, g, c);
    } else if data[i] == LT {
      assert OpenRun(data, i, i + 1);
      assert Scanned(data, i + 1, i, i);
      ScanFromFindsStart(data, i + 1, i, i);
    } else if IsPrefixByte(data[i]) {
      var s' := if s == i - 1 && f != -2 then i else s;
      if f != -2 {
        assert OpenRun(data, f, i + 1);
      } else {
        ClosedStaysClosed(data, i, i + 1);
      }
      assert Scanned(data, i + 1, f, s');
      ScanFromFindsStart(data, i + 1, f, s');
    } else if data[i] == COLON {
      if s == i - 1 && f != -2 {
        assert StartSequence(data, f, i);
      } else {
        ClosedStaysClosed(data, i, i + 1);
        assert Scanned(data, i + 1, f, s);
        ScanFromFindsStart(data, i + 1, f, s);
      }
    } else {
      BreakCloses(data, i, i + 1);
      assert Scanned(data, i + 1, -2, -2);
      ScanFromFindsStart(data, i + 1, -2, -2);
    }
  }

  /** `esi_parser_scan_for_start` returns -1 or the position of a `<`; it stops at the first
      `:` that completes `<` followed by bytes among `/`, `e`, `s`, `i`, and returns that `<`;
      when no `:` does, it returns the `<` of a run still open at the end, and -1 otherwise. */
  lemma ScanForStartFindsStart(data: seq<Byte>)
    ensures FindsStart(data, ScanForStart(data))
  {
    ScanFromFindsStart(data, 0, -2, -2);
  }

  /** Where the automaton stands after the bytes before `i` of a chunk whose scan finds no start
      sequence, started from state 0 in `s`: in 0 or a prefix state (in 0 whenever the scan has
      no open run), with the bytes since the last `<` staged and everything before them echoed. */
  ghost predicate Tracks(s: Scanner, t: Scanner, data: seq<Byte>, i: int, f: int) {
    && Buffers(s) && 0 <= |t.echo| <= i <= |data|
    && !t.fault && Inv(t, i)
    && (t.cs == 0 || IsPrefixState(t.cs))
    && (f == -2 ==> t.cs == 0)
    && t.prevState == t.cs
    && t.echo == data[i - |t.echo|..i]
    && (t.mark.At? || t.mark == s.mark)
    && t == s.(cs := t.cs, prevState := t.prevState, mark := t.mark, echo := t.echo,
               echoAllocated := t.echoAllocated, sink := EchoAll(s.sink, data[..i - |t.echo|]))
  }

  lemma SliceJoin(data: seq<Byte>, j: int, i: int)
    requires 0 <= j <= i <= |data|
    ensures data[..j] + data[j..i] == data[..i]
  {
  }

  lemma SliceSnoc(data: seq<Byte>, i: int)
    requires 0 <= i < |data|
    ensures data[..i] + [data[i]] == data[..i + 1]
  {
  }

  lemma SliceSnocFrom(data: seq<Byte>, j: int, i: int)
    requires 0 <= j <= i < |data|
    ensures data[j..i] + [data[i]] == data[j..i + 1]
  {
  }

  lemma EchoAllSnoc(k: Sink, a: seq<Byte>, b: Byte)
    requires |k.buffer| < OUTPUT_BUFFER_SIZE
    ensures EchoChar(EchoAll(k, a), b) == EchoAll(k, a + [b])
  {
    assert (a + [b])[..|a|] == a;
  }

  /** Echoing the staged bytes and then one more byte echoes the chunk up to that byte. */
  lemma EchoUpTo(k: Sink, data: seq<Byte>, j: int, i: int)
    requires 0 <= j <= i < |data| && |k.buffer| < OUTPUT_BUFFER_SIZE
    ensures EchoChar(EchoAll(EchoAll(k, data[..j]), data[j..i]), data[i]) == EchoAll(k, data[..i + 1])
  {
    SliceJoin(data, j, i);
    EchoAllAppend(k, data[..j], data[j..i]);
    SliceSnoc(data, i);
    EchoAllSnoc(k, data[..i], data[i]);
  }

  /** One byte of the scan, when the scan goes on to return -1: its variables after the byte. */
  lemma ScanStep(data: seq<Byte>, i: int, f: int, sv: int) returns (f': int, sv': int)
    requires Scanned(data, i, f, sv) && i < |data| && ScanFrom(data, i, f, sv) == -1
    ensures Scanned(data, i + 1, f', sv') && ScanFrom(data, i + 1, f', sv') == -1
    ensures data[i] == COLON ==> f == -2
    ensures f' == (if data[i] == LT then i else if IsPrefixByte(data[i]) then f else -2)
  {
    var b := data[i];
    if b == LT {
      f', sv' := i, i;
      assert OpenRun(data, i, i + 1);
    } else if IsPrefixByte(b) {
      f', sv' := f, if sv == i - 1 && f != -2 then i else sv;
      if f == -2 {
        ClosedStaysClosed(data, i, i + 1);
      } else {
        assert OpenRun(data, f, i + 1);
      }
    } else if b == COLON {
      f', sv' := -2, -2;
      ClosedStaysClosed(data, i, i + 1);
    } else {
      f', sv' := -2, -2;
      BreakCloses(data, i, i + 1);
    }
  }

  /** One byte of the automaton, for a byte the scan lets through. */
  lemma TrackStep(s: Scanner, t: Scanner, data: seq<Byte>, i: int, f: int, f': int)
    requires Tracks(s, t, data, i, f) && i < |data|
    requires data[i] == COLON ==> f == -2
    requires f' == (if data[i] == LT then i else if IsPrefixByte(data[i]) then f else -2)
    ensures Tracks(s, Step(t, data, i), data, i + 1, f')
  {
    var m := Transition(t.cs, data[i]);
    if m.target == 0 {
      TrackEcho(s, t, data, i, f, f', m);
    } else {
      TrackStage(s, t, data, i, f, f', m);
    }
  }

  /** A byte that takes the automaton back to 0 is echoed after the staged bytes. */
  lemma TrackEcho(s: Scanner, t: Scanner, data: seq<Byte>, i: int, f: int, f': int, m: Move)
    requires Tracks(s, t, data, i, f) && i < |data| && m == Transition(t.cs, data[i]) && m.target == 0
    requires data[i] == COLON ==> f == -2
    requires f' == (if data[i] == LT then i else if IsPrefixByte(data[i]) then f else -2)
    ensures Tracks(s, Step(t, data, i), data, i + 1, f')
  {
    assert m.action == Echo;
    assert Step(t, data, i) == EchoStep(t, 0, data[i]);
    EchoedUpTo(s, t, data, i);
    TracksAfterEcho(s, t, data, i, f, f');
  }

  /** The state the echo step leaves in 0 is tracked one byte further on. */
  lemma TracksAfterEcho(s: Scanner, t: Scanner, data: seq<Byte>, i: int, f: int, f': int)
    requires Tracks(s, t, data, i, f) && i < |data|
    requires EchoStep(t, 0, data[i]).sink == EchoAll(s.sink, data[..i + 1])
    ensures Tracks(s, EchoStep(t, 0, data[i]), data, i + 1, f')
  {
    assert data[i + 1..i + 1] == [];
  }

  /** Back in 0, everything up to and including the byte has been echoed. */
  lemma EchoedUpTo(s: Scanner, t: Scanner, data: seq<Byte>, i: int)
    requires Buffers(s) && Buffers(t) && 0 <= |t.echo| <= i < |data|
    requires t.echo == data[i - |t.echo|..i] && t.sink == EchoAll(s.sink, data[..i - |t.echo|])
    requires t.prevState != 12 && t.prevState != 7
    ensures EchoStep(t, 0, data[i]).sink == EchoAll(s.sink, data[..i + 1])
  {
    var j := i - |t.echo|;
    EchoUpTo(s.sink, data, j, i);
    if |t.echo| == 0 {
      assert data[j..i] == [];
    }
  }

  /** A byte that keeps the automaton in a prefix state is staged. */
  lemma TrackStage(s: Scanner, t: Scanner, data: seq<Byte>, i: int, f: int, f': int, m: Move)
    requires Tracks(s, t, data, i, f) && i < |data| && m == Transition(t.cs, data[i]) && m.target != 0
    requires data[i] == COLON ==> f == -2
    requires f' == (if data[i] == LT then i else if IsPrefixByte(data[i]) then f else -2)
    ensures Tracks(s, Step(t, data, i), data, i + 1, f')
  {
    var e := EchoStep(t, m.target, data[i]);
    assert Step(t, data, i) == ApplyAction(e, m.action, data, i);
    var j := i - |t.echo|;
    SliceSnocFrom(data, j, i);
  }

  lemma {:induction false} BypassRun(s: Scanner, t: Scanner, data: seq<Byte>, i: int, f: int, sv: int)
    requires Resting(s) && s.cs == 0 && !s.fault
    requires Scanned(data, i, f, sv) && ScanFrom(data, i, f, sv) == -1
    requires Tracks(s, t, data, i, f)
    ensures var r := CarryOver(Run(t, data, i), data);
            r == s.(sink := EchoAll(s.sink, data), echoAllocated := r.echoAllocated)
    decreases |data| - i
  {
    if i == |data| {
      assert t.cs == 0 && t.echo == [];
      assert data[..i] == data;
      assert s.mark == Dangling && Release(t.mark) == Dangling;
      assert Release(t.tagText) == s.tagText && Release(t.attrKey) == s.attrKey && Release(t.attrValue) == s.attrValue;
    } else {
      var f', sv' := ScanStep(data, i, f, sv);
      TrackStep(s, t, data, i, f, f');
      BypassRun(s, Step(t, data, i), data, i + 1, f', sv');
    }
  }

  /** In state 0, a chunk in which `esi_parser_scan_for_start` finds nothing would take the
      automaton through 0 and the prefix states only and echo every byte in order: the bypass
      gives the same state, except that it does not grow the echo buffer. */
  lemma PrescanBypassIsSound(s: Scanner, data: seq<Byte>)
    requires Resting(s) && s.cs == 0 && !s.fault && |data| > 0 && ScanForStart(data) == -1
    ensures Scan(s, data) == Execute(s, data).(echoAllocated := Scan(s, data).echoAllocated)
  {
    assert s.overflow == None && s.mark != Null;
    assert Resume(s, data) == s;
    assert data[..0] == [];
    assert Tracks(s, s, data, 0, -2);
    BypassRun(s, s, data, 0, -2, -2);
  }
}
