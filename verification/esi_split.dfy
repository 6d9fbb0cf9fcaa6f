/** Feeding `esi_parser_execute` a text in two chunks or in one.  The two ways scan the same
    bytes with the same automaton; they differ in which buffer a pointer lies in (after a call
    that ends in 0 or the start state the next chunk is scanned from offset 0, not after the
    earlier bytes), and in how far the echo buffer has grown (the prescan's bypass does not grow
    it).  `Sim` relates two scanner states that differ in those respects only, and every layer
    of a call keeps it: a step, the loop, the carry-over, a whole call.  So the handler calls,
    the bytes let through, the state and the staged bytes are the same whichever way the text
    was split. */
module EsiSplit {
  import opened Bytes
  import opened Trim
  import opened EsiMachine
  import opened EsiScan
  import opened EsiPrescan

  /** A pointer of a state whose buffer starts `k` bytes later: a pointer into that buffer lies
      `k` bytes further on in the other, and the two are null together. */
  predicate PtrSim(px: Ptr, py: Ptr, k: int) {
    (py.At? ==> px == At(py.off + k)) && (px == Null <==> py == Null)
  }

  /** `x` and `y` are the same scanner, except that `x`'s buffer holds `k` more bytes in front,
      and except for the echo buffer's capacity and the overflow buffer. */
  predicate Sim(x: Scanner, y: Scanner, k: int) {
    && 0 <= k
    && x.cs == y.cs && x.prevState == y.prevState
    && x.tagTextLength == y.tagTextLength && x.attrKeyLength == y.attrKeyLength && x.attrValueLength == y.attrValueLength
    && x.echo == y.echo && x.sink == y.sink && x.attributes == y.attributes && x.fault == y.fault
    && PtrSim(x.mark, y.mark, k) && PtrSim(x.tagText, y.tagText, k)
    && PtrSim(x.attrKey, y.attrKey, k) && PtrSim(x.attrValue, y.attrValue, k)
  }

  /** Both states carry an overflow buffer or neither does; while there is something left to
      run, `x`'s is `y`'s with `k` more bytes in front. */
  predicate Carried(x: Scanner, y: Scanner, k: int) {
    && x.overflow.Some? == y.overflow.Some?
    && (x.overflow.Some? && !x.fault ==>
          0 <= k && |x.overflow.value| == |y.overflow.value| + k && x.overflow.value[k..] == y.overflow.value)
  }

  /** Two states between calls that behave alike on every later chunk. */
  predicate CallSim(x: Scanner, y: Scanner, k: int) {
    Resting(x) && Resting(y) && Sim(x, y, k) && Carried(x, y, k)
  }

  /** What a caller can tell apart: the state, the staged bytes, the handler calls and the
      output buffer, the attributes collected, a fault, and whether a tag is left unfinished. */
  predicate Agree(x: Scanner, y: Scanner) {
    && x.cs == y.cs && x.prevState == y.prevState && x.echo == y.echo
    && x.sink == y.sink && x.attributes == y.attributes && x.fault == y.fault
    && x.overflow.Some? == y.overflow.Some?
  }

  lemma SimTrans(x: Scanner, y: Scanner, z: Scanner, k1: int, k2: int, k: int)
    requires Sim(x, y, k1) && Sim(y, z, k2) && k == k1 + k2
    ensures Sim(x, z, k)
  {
  }

  lemma CallSimTrans(x: Scanner, y: Scanner, z: Scanner, k1: int, k2: int, k: int)
    requires CallSim(x, y, k1) && CallSim(y, z, k2) && k == k1 + k2
    ensures CallSim(x, z, k)
  {
    SimTrans(x, y, z, k1, k2, k);
    if x.overflow.Some? && !x.fault {
      var X, Y := x.overflow.value, y.overflow.value;
      assert X[k..] == X[k1..][k2..];
    }
  }

  /** `ltrim_pointer` on the same bytes `k` positions further on stops at the same byte. */
  lemma {:induction false} LTrimShift(dx: seq<Byte>, dy: seq<Byte>, spx: Span, sp: Span, boundx: int, bound: int, k: int)
    requires InBuffer(dy, sp) && 0 <= k && sp.start + sp.len + k <= |dx|
    requires spx == Span(sp.start + k, sp.len) && boundx == bound + k
    requires forall i :: sp.start <= i < sp.start + sp.len ==> dx[i + k] == dy[i]
    ensures LTrim(dx, spx, boundx) == Span(LTrim(dy, sp, bound).start + k, LTrim(dy, sp, bound).len)
    decreases sp.len
  {
    if sp.len > 0 {
      assert dx[spx.start] == dy[sp.start];
      if sp.start != bound && IsLeftTrim(dy[sp.start]) {
        LTrimShift(dx, dy, Span(spx.start + 1, spx.len - 1), Span(sp.start + 1, sp.len - 1), boundx, bound, k);
      }
    }
  }

  /** `rtrim_pointer` likewise. */
  lemma {:induction false} RTrimShift(dx: seq<Byte>, dy: seq<Byte>, spx: Span, sp: Span, k: int)
    requires InBuffer(dy, sp) && 0 <= k && sp.start + sp.len + k <= |dx|
    requires spx == Span(sp.start + k, sp.len)
    requires forall i :: sp.start <= i < sp.start + sp.len ==> dx[i + k] == dy[i]
    ensures RTrim(dx, spx) == Span(RTrim(dy, sp).start + k, RTrim(dy, sp).len)
    decreases sp.len
  {
    if sp.len > 1 {
      assert dx[spx.start + spx.len - 1] == dy[sp.start + sp.len - 1];
      if IsRightTrim(dy[sp.start + sp.len - 1]) {
        RTrimShift(dx, dy, Span(spx.start, spx.len - 1), Span(sp.start, sp.len - 1), k);
      }
    }
  }

  /** Trimming `spx` in `dx` gives trimming `spy` in `dy` moved on by `k`, and the same text. */
  predicate TrimShifted(dx: seq<Byte>, dy: seq<Byte>, spx: Span, spy: Span, boundx: int, boundy: int, k: int)
    requires InBuffer(dx, spx) && InBuffer(dy, spy)
  {
    var tx, ty := Trimmed(dx, spx, boundx), Trimmed(dy, spy, boundy);
    tx == Span(ty.start + k, ty.len) && Text(dx, tx) == Text(dy, ty)
  }

  /** The trimmed span of the same bytes `k` positions further on is the same span moved on,
      and holds the same text. */
  lemma TrimmedShift(dx: seq<Byte>, dy: seq<Byte>, spx: Span, spy: Span, boundx: int, boundy: int, k: int, m: int, n: int)
    requires InBuffer(dy, spy) && 0 <= k && spy.start + spy.len <= n <= |dy| && m == k + n <= |dx|
    requires dx[k..m] == dy[..n]
    requires spx == Span(spy.start + k, spy.len) && boundx == boundy + k
    ensures InBuffer(dx, spx) && TrimShifted(dx, dy, spx, spy, boundx, boundy, k)
  {
    SliceAgree(dx, dy, k, m, n);
    LTrimShift(dx, dy, spx, spy, boundx, boundy, k);
    var lx, ly := LTrim(dx, spx, boundx), LTrim(dy, spy, boundy);
    RTrimShift(dx, dy, lx, ly, k);
    TextShift(dx, dy, Trimmed(dy, spy, boundy), k, m, n);
  }

  /** Equal slices agree byte by byte. */
  lemma SliceAgree(dx: seq<Byte>, dy: seq<Byte>, k: int, m: int, n: int)
    requires 0 <= k && 0 <= n <= |dy| && m == k + n <= |dx| && dx[k..m] == dy[..n]
    ensures forall i :: 0 <= i < n ==> dx[i + k] == dy[i]
  {
    forall i | 0 <= i < n ensures dx[i + k] == dy[i] {
      assert dx[k..m][i] == dy[..n][i];
    }
  }

  /** The same bytes `k` positions further on. */
  lemma TextShift(dx: seq<Byte>, dy: seq<Byte>, sp: Span, k: int, m: int, n: int)
    requires InBuffer(dy, sp) && 0 <= k && sp.start + sp.len <= n <= |dy| && m == k + n <= |dx|
    requires dx[k..m] == dy[..n]
    ensures Text(dx, Span(sp.start + k, sp.len)) == Text(dy, sp)
  {
    var tx, ty := Text(dx, Span(sp.start + k, sp.len)), Text(dy, sp);
    SliceAgree(dx, dy, k, m, n);
    forall j | 0 <= j < sp.len ensures tx[j] == ty[j] {
      assert tx[j] == dx[sp.start + j + k] && ty[j] == dy[sp.start + j];
    }
  }

  /** The buffers agree up to position `p`, `xb`'s starting `k` bytes in. */
  predicate Window(xb: seq<Byte>, yb: seq<Byte>, q: int, p: int, k: int) {
    0 <= k && q == p + k && 0 <= p < |yb| && q < |xb| && xb[k..q] == yb[..p] && xb[q] == yb[p]
  }

  /** The spans `f2` trims in the two buffers. */
  function EndTagSpan(s: Scanner, p: int): Span
    requires s.mark.At?
  {
    Span(s.mark.off + 2, p - (s.mark.off + 2))
  }

  /** The span `f4`, `f6` and `f7` trim: from `mark` to the current byte. */
  function MarkSpan(s: Scanner, p: int): Span
    requires s.mark.At?
  {
    Span(s.mark.off, p - s.mark.off)
  }

  /** The span `f5` and `f8` trim: the name `f3` captured. */
  function TagSpan(s: Scanner): Span
    requires s.tagText.At?
  {
    Span(s.tagText.off, s.tagTextLength)
  }

  lemma EndTagFields(ex: Scanner, ey: Scanner, xb: seq<Byte>, yb: seq<Byte>, q: int, p: int, k: int)
    requires Sim(ex, ey, k) && Ready(ex, EndTag, xb, q) && Ready(ey, EndTag, yb, p)
    requires TrimShifted(xb, yb, EndTagSpan(ex, q), EndTagSpan(ey, p), q, p, k)
    ensures EndTagAction(ex, xb, q).sink == EndTagAction(ey, yb, p).sink
    ensures EndTagAction(ex, xb, q).tagText.off == EndTagAction(ey, yb, p).tagText.off + k
    ensures EndTagAction(ex, xb, q).tagTextLength == EndTagAction(ey, yb, p).tagTextLength
  {
  }

  /** `f2` on similar states over agreeing buffers. */
  lemma EndTagSim(ex: Scanner, ey: Scanner, xb: seq<Byte>, yb: seq<Byte>, q: int, p: int, k: int)
    requires Sim(ex, ey, k) && Window(xb, yb, q, p, k)
    requires Ready(ex, EndTag, xb, q) && Ready(ey, EndTag, yb, p)
    ensures Sim(EndTagAction(ex, xb, q), EndTagAction(ey, yb, p), k)
  {
    TrimmedShift(xb, yb, EndTagSpan(ex, q), EndTagSpan(ey, p), q, p, k, q, p);
    EndTagFields(ex, ey, xb, yb, q, p, k);
  }

  lemma StartTagNoAttrsFields(ex: Scanner, ey: Scanner, xb: seq<Byte>, yb: seq<Byte>, q: int, p: int, k: int)
    requires Sim(ex, ey, k) && Ready(ex, StartTagNoAttrs, xb, q) && Ready(ey, StartTagNoAttrs, yb, p)
    requires TrimShifted(xb, yb, MarkSpan(ex, q), MarkSpan(ey, p), q, p, k)
    ensures StartTagNoAttrsAction(ex, xb, q).sink == StartTagNoAttrsAction(ey, yb, p).sink
    ensures StartTagNoAttrsAction(ex, xb, q).tagText.off == StartTagNoAttrsAction(ey, yb, p).tagText.off + k
    ensures StartTagNoAttrsAction(ex, xb, q).tagTextLength == StartTagNoAttrsAction(ey, yb, p).tagTextLength
  {
  }

  /** `f4` likewise. */
  lemma StartTagNoAttrsSim(ex: Scanner, ey: Scanner, xb: seq<Byte>, yb: seq<Byte>, q: int, p: int, k: int)
    requires Sim(ex, ey, k) && Window(xb, yb, q, p, k)
    requires Ready(ex, StartTagNoAttrs, xb, q) && Ready(ey, StartTagNoAttrs, yb, p)
    ensures Sim(StartTagNoAttrsAction(ex, xb, q), StartTagNoAttrsAction(ey, yb, p), k)
  {
    TrimmedShift(xb, yb, MarkSpan(ex, q), MarkSpan(ey, p), q, p, k, q, p);
    StartTagNoAttrsFields(ex, ey, xb, yb, q, p, k);
  }

  lemma StartTagFields(ex: Scanner, ey: Scanner, xb: seq<Byte>, yb: seq<Byte>, q: int, p: int, k: int)
    requires Sim(ex, ey, k) && Ready(ex, StartTag, xb, q) && Ready(ey, StartTag, yb, p) && ey.tagText.At?
    requires TrimShifted(xb, yb, TagSpan(ex), TagSpan(ey), q, p, k)
    ensures StartTagAction(ex, xb, q).sink == StartTagAction(ey, yb, p).sink
  {
  }

  /** `f5` likewise. */
  lemma StartTagSim(ex: Scanner, ey: Scanner, xb: seq<Byte>, yb: seq<Byte>, q: int, p: int, k: int)
    requires Sim(ex, ey, k) && Window(xb, yb, q, p, k)
    requires Ready(ex, StartTag, xb, q) && Ready(ey, StartTag, yb, p)
    ensures Sim(StartTagAction(ex, xb, q), StartTagAction(ey, yb, p), k)
  {
    if ey.tagText.At? {
      TrimmedShift(xb, yb, TagSpan(ex), TagSpan(ey), q, p, k, q, p);
      StartTagFields(ex, ey, xb, yb, q, p, k);
    }
  }

  lemma AttrKeyFields(ex: Scanner, ey: Scanner, xb: seq<Byte>, yb: seq<Byte>, q: int, p: int, k: int)
    requires Sim(ex, ey, k) && Ready(ex, AttrKey, xb, q) && Ready(ey, AttrKey, yb, p)
    requires TrimShifted(xb, yb, MarkSpan(ex, q), MarkSpan(ey, p), q, p, k)
    ensures AttrKeyAction(ex, xb, q).attrKey.off == AttrKeyAction(ey, yb, p).attrKey.off + k
    ensures AttrKeyAction(ex, xb, q).attrKeyLength == AttrKeyAction(ey, yb, p).attrKeyLength
  {
  }

  /** `f6` likewise. */
  lemma AttrKeySim(ex: Scanner, ey: Scanner, xb: seq<Byte>, yb: seq<Byte>, q: int, p: int, k: int)
    requires Sim(ex, ey, k) && Window(xb, yb, q, p, k)
    requires Ready(ex, AttrKey, xb, q) && Ready(ey, AttrKey, yb, p)
    ensures Sim(AttrKeyAction(ex, xb, q), AttrKeyAction(ey, yb, p), k)
  {
    TrimmedShift(xb, yb, MarkSpan(ex, q), MarkSpan(ey, p), q, p, k, q, p);
    AttrKeyFields(ex, ey, xb, yb, q, p, k);
  }

  lemma AttrValueFields(ex: Scanner, ey: Scanner, xb: seq<Byte>, yb: seq<Byte>, q: int, p: int, k: int)
    requires Sim(ex, ey, k) && Ready(ex, AttrValue, xb, q) && Ready(ey, AttrValue, yb, p)
    requires TrimShifted(xb, yb, MarkSpan(ex, q), MarkSpan(ey, p), q, p, k)
    requires Text(xb, Span(ex.attrKey.off, ex.attrKeyLength)) == Text(yb, Span(ey.attrKey.off, ey.attrKeyLength))
    ensures AttrValueAction(ex, xb, q).attrValue.off == AttrValueAction(ey, yb, p).attrValue.off + k
    ensures AttrValueAction(ex, xb, q).attrValueLength == AttrValueAction(ey, yb, p).attrValueLength
    ensures AttrValueAction(ex, xb, q).attributes == AttrValueAction(ey, yb, p).attributes
  {
  }

  /** `f7` likewise. */
  lemma AttrValueSim(ex: Scanner, ey: Scanner, xb: seq<Byte>, yb: seq<Byte>, q: int, p: int, k: int)
    requires Sim(ex, ey, k) && Window(xb, yb, q, p, k)
    requires Ready(ex, AttrValue, xb, q) && Ready(ey, AttrValue, yb, p)
    ensures Sim(AttrValueAction(ex, xb, q), AttrValueAction(ey, yb, p), k)
  {
    TrimmedShift(xb, yb, MarkSpan(ex, q), MarkSpan(ey, p), q, p, k, q, p);
    assert Span(ex.attrKey.off, ex.attrKeyLength) == Span(ey.attrKey.off + k, ey.attrKeyLength);
    TextShift(xb, yb, Span(ey.attrKey.off, ey.attrKeyLength), k, q, p);
    AttrValueFields(ex, ey, xb, yb, q, p, k);
  }

  lemma EmptyTagFields(ex: Scanner, ey: Scanner, xb: seq<Byte>, yb: seq<Byte>, q: int, p: int, k: int)
    requires Sim(ex, ey, k) && Ready(ex, EmptyTag, xb, q) && Ready(ey, EmptyTag, yb, p) && ey.tagText.At?
    requires TrimShifted(xb, yb, TagSpan(ex), TagSpan(ey), q, p, k)
    ensures EmptyTagAction(ex, xb, q).sink == EmptyTagAction(ey, yb, p).sink
  {
  }

  /** `f8` likewise. */
  lemma EmptyTagSim(ex: Scanner, ey: Scanner, xb: seq<Byte>, yb: seq<Byte>, q: int, p: int, k: int)
    requires Sim(ex, ey, k) && Window(xb, yb, q, p, k)
    requires Ready(ex, EmptyTag, xb, q) && Ready(ey, EmptyTag, yb, p)
    ensures Sim(EmptyTagAction(ex, xb, q), EmptyTagAction(ey, yb, p), k)
  {
    if ey.tagText.At? {
      TrimmedShift(xb, yb, TagSpan(ex), TagSpan(ey), q, p, k, q, p);
      EmptyTagFields(ex, ey, xb, yb, q, p, k);
    }
  }

  /** An action run on similar states over agreeing buffers gives similar states. */
  lemma ActionSim(ex: Scanner, ey: Scanner, a: Action, xb: seq<Byte>, yb: seq<Byte>, q: int, p: int, k: int)
    requires Sim(ex, ey, k) && Window(xb, yb, q, p, k)
    requires Ready(ex, a, xb, q) && Ready(ey, a, yb, p)
    ensures Sim(ApplyAction(ex, a, xb, q), ApplyAction(ey, a, yb, p), k)
  {
    match a
    case Echo =>
    case EchoMark =>
    case EndTag => EndTagSim(ex, ey, xb, yb, q, p, k);
    case TagName =>
    case StartTagNoAttrs => StartTagNoAttrsSim(ex, ey, xb, yb, q, p, k);
    case StartTag => StartTagSim(ex, ey, xb, yb, q, p, k);
    case AttrKey => AttrKeySim(ex, ey, xb, yb, q, p, k);
    case AttrValue => AttrValueSim(ex, ey, xb, yb, q, p, k);
    case EmptyTag => EmptyTagSim(ex, ey, xb, yb, q, p, k);
  }

  /** A step on similar states over agreeing buffers gives similar states. */
  lemma StepSim(x: Scanner, y: Scanner, xb: seq<Byte>, yb: seq<Byte>, q: int, p: int, k: int)
    requires Sim(x, y, k) && Inv(x, q) && Inv(y, p) && !y.fault && Window(xb, yb, q, p, k)
    ensures Sim(Step(x, xb, q), Step(y, yb, p), k)
  {
    var m := Transition(y.cs, yb[p]);
    var ex := EchoStep(x, m.target, yb[p]);
    var ey := EchoStep(y, m.target, yb[p]);
    ActionKeepsInv(x, ex, m, xb, q);
    ActionKeepsInv(y, ey, m, yb, p);
    ActionSim(ex, ey, m.action, xb, yb, q, p, k);
  }

  lemma SuffixWindow(xb: seq<Byte>, yb: seq<Byte>, q: int, p: int, k: int)
    requires Suffix(xb, yb, k) && 0 <= p < |yb| && q == p + k
    ensures Window(xb, yb, q, p, k)
  {
    assert xb[k..q] == xb[k..][..p];
    assert xb[k..][p] == xb[q];
  }

  /** What `RunSim` keeps from one step to the next: related states at positions `k` apart in
      buffers of which the first has `k` more bytes in front. */
  predicate Lockstep(x: Scanner, y: Scanner, xb: seq<Byte>, yb: seq<Byte>, q: int, p: int, k: int) {
    Sim(x, y, k) && q == p + k && Inv(x, q) && Inv(y, p) && p <= |yb| && Suffix(xb, yb, k)
  }

  /** One round of `RunSim`: both loops take a step to states that are still related. */
  lemma RunStepSim(x: Scanner, y: Scanner, xb: seq<Byte>, yb: seq<Byte>, q: int, p: int, k: int)
    returns (x': Scanner, y': Scanner)
    requires Lockstep(x, y, xb, yb, q, p, k) && p < |yb| && !y.fault
    ensures Lockstep(x', y', xb, yb, q + 1, p + 1, k)
    ensures Run(x, xb, q) == Run(x', xb, q + 1) && Run(y, yb, p) == Run(y', yb, p + 1)
  {
    SuffixWindow(xb, yb, q, p, k);
    StepSim(x, y, xb, yb, q, p, k);
    x', y' := Step(x, xb, q), Step(y, yb, p);
    RunUnfold(x, xb, q);
    RunUnfold(y, yb, p);
  }

  /** The loop over a buffer and over the same buffer with `k` more bytes in front, from
      position `q == p + k` in the longer one. */
  lemma {:induction false} RunSim(x: Scanner, y: Scanner, xb: seq<Byte>, yb: seq<Byte>, q: int, p: int, k: int)
    requires Lockstep(x, y, xb, yb, q, p, k)
    ensures Sim(Run(x, xb, q), Run(y, yb, p), k)
    decreases |yb| - p, 1
  {
    if p < |yb| && !y.fault {
      RunSimStep(x, y, xb, yb, q, p, k);
    } else {
      RunSimStops(x, y, xb, yb, q, p, k);
    }
  }

  /** `RunSim` where both loops have a step to take. */
  lemma {:induction false} RunSimStep(x: Scanner, y: Scanner, xb: seq<Byte>, yb: seq<Byte>, q: int, p: int, k: int)
    requires Lockstep(x, y, xb, yb, q, p, k) && p < |yb| && !y.fault
    ensures Sim(Run(x, xb, q), Run(y, yb, p), k)
    decreases |yb| - p, 0
  {
    var x', y' := RunStepSim(x, y, xb, yb, q, p, k);
    RunSim(x', y', xb, yb, q + 1, p + 1, k);
  }

  /** Where the shorter loop stops, the longer one stops too. */
  lemma RunSimStops(x: Scanner, y: Scanner, xb: seq<Byte>, yb: seq<Byte>, q: int, p: int, k: int)
    requires Sim(x, y, k) && q == p + k && Inv(x, q) && Inv(y, p) && p <= |yb|
    requires Suffix(xb, yb, k) && (p == |yb| || y.fault)
    ensures Run(x, xb, q) == x && Run(y, yb, p) == y
  {
    RunStops(y, yb, p);
    RunStops(x, xb, q);
  }

  /** The loop over `A + b` is the loop over `A` followed by the loop over the rest: no step
      reads a byte past its own position. */
  lemma {:induction false} RunPrefixSim(x: Scanner, y: Scanner, A: seq<Byte>, b: seq<Byte>, p: int)
    requires Sim(x, y, 0) && Inv(x, p) && Inv(y, p) && p <= |A|
    ensures Sim(Run(x, A + b, p), Run(Run(y, A, p), A + b, |A|), 0)
    decreases |A| - p
  {
    if p < |A| && !y.fault {
      PrefixStepSim(x, y, A, b, p);
      RunPrefixSim(Step(x, A + b, p), Step(y, A, p), A, b, p + 1);
      PrefixJoin(x, y, A, b, p);
    } else {
      PrefixEnd(x, y, A, b, p);
    }
  }

  /** A step at a position inside `A` does the same over `A` and over `A + b`. */
  lemma PrefixStepSim(x: Scanner, y: Scanner, A: seq<Byte>, b: seq<Byte>, p: int)
    requires Sim(x, y, 0) && Inv(x, p) && Inv(y, p) && p < |A| && !y.fault
    ensures Sim(Step(x, A + b, p), Step(y, A, p), 0)
  {
    PrefixWindow(A, b, p);
    StepSim(x, y, A + b, A, p, p, 0);
  }

  lemma PrefixWindow(A: seq<Byte>, b: seq<Byte>, p: int)
    requires 0 <= p < |A|
    ensures Window(A + b, A, p, p, 0)
  {
    assert (A + b)[0..p] == A[..p];
  }

  /** The step case of `RunPrefixSim`: one step, then the rest. */
  lemma PrefixJoin(x: Scanner, y: Scanner, A: seq<Byte>, b: seq<Byte>, p: int)
    requires Sim(x, y, 0) && Inv(x, p) && Inv(y, p) && p < |A| && !y.fault
    requires Sim(Run(Step(x, A + b, p), A + b, p + 1), Run(Run(Step(y, A, p), A, p + 1), A + b, |A|), 0)
    ensures Sim(Run(x, A + b, p), Run(Run(y, A, p), A + b, |A|), 0)
  {
    RunUnfold(y, A, p);
    RunUnfold(x, A + b, p);
  }

  /** The end case of `RunPrefixSim`: nothing of `A` is left, or a fault stopped the loop. */
  lemma PrefixEnd(x: Scanner, y: Scanner, A: seq<Byte>, b: seq<Byte>, p: int)
    requires Sim(x, y, 0) && Inv(x, p) && Inv(y, p) && p <= |A| && (p == |A| || y.fault)
    ensures Sim(Run(x, A + b, p), Run(Run(y, A, p), A + b, |A|), 0)
  {
    RunStops(y, A, p);
    if y.fault {
      FaultStops(x, y, A + b, p, |A|);
    } else {
      SameRunSim(x, y, A + b, p);
    }
  }

  /** Two similar states running over the same buffer from the same position stay similar. */
  lemma SameRunSim(x: Scanner, y: Scanner, buf: seq<Byte>, p: int)
    requires Sim(x, y, 0) && Inv(x, p) && Inv(y, p) && p <= |buf|
    ensures Sim(Run(x, buf, p), Run(y, buf, p), 0)
  {
    SuffixSelf(buf);
    RunSim(x, y, buf, buf, p, p, 0);
  }

  /** After a fault neither loop does anything. */
  lemma FaultStops(x: Scanner, y: Scanner, buf: seq<Byte>, p: int, q: int)
    requires Sim(x, y, 0) && Inv(x, p) && Inv(y, q) && p <= |buf| && q <= |buf| && y.fault
    ensures Sim(Run(x, buf, p), Run(y, buf, q), 0)
  {
    RunStops(x, buf, p);
    RunStops(y, buf, q);
  }

  /** The carry-over keeps states similar, and keeps the longer buffer with the other at its
      end. */
  lemma CarryOverSim(x: Scanner, y: Scanner, xb: seq<Byte>, yb: seq<Byte>, k: int)
    requires Sim(x, y, k) && Suffix(xb, yb, k)
    ensures Sim(CarryOver(x, xb), CarryOver(y, yb), k) && Carried(CarryOver(x, xb), CarryOver(y, yb), k)
  {
  }

  /** A call that takes the bypass ends as the automaton would, but for the echo buffer's
      capacity. */
  lemma ExecuteNearScan(s: Scanner, d: seq<Byte>)
    requires Resting(s) && !s.fault && |d| > 0
    ensures CallSim(Execute(s, d), Scan(s, d), 0) && CallSim(Scan(s, d), Execute(s, d), 0)
  {
    if s.cs == 0 && ScanForStart(d) == -1 {
      PrescanBypassIsSound(s, d);
    } else if s.overflow.Some? {
      assert s.overflow.value[0..] == s.overflow.value;
      assert Scan(s, d).overflow.Some? ==> Scan(s, d).overflow.value[0..] == Scan(s, d).overflow.value;
    }
  }

  /** A buffer with `k` more bytes in front, as `RunSim` and `CarryOverSim` take it. */
  predicate Suffix(xb: seq<Byte>, yb: seq<Byte>, k: int) {
    0 <= k && |xb| == |yb| + k && xb[k..] == yb
  }

  lemma SuffixSelf(xb: seq<Byte>)
    ensures Suffix(xb, xb, 0)
  {
    assert xb[0..] == xb;
  }

  lemma SuffixAppend(xo: seq<Byte>, yo: seq<Byte>, d: seq<Byte>, k: int)
    requires Suffix(xo, yo, k)
    ensures Suffix(xo + d, yo + d, k)
  {
    assert (xo + d)[k..] == xo[k..] + d;
  }

  lemma SuffixSplit(A: seq<Byte>, b: seq<Byte>)
    ensures Suffix(A + b, b, |A|)
  {
    assert (A + b)[|A|..] == b;
  }

  /** The prologues of similar states scan similar buffers from matching positions. */
  lemma ResumeSim(x: Scanner, y: Scanner, k: int, d: seq<Byte>) returns (k': int)
    requires CallSim(x, y, k) && |d| > 0 && !x.fault
    ensures Sim(Resume(x, d), Resume(y, d), k') && Suffix(ScanBuffer(x, d), ScanBuffer(y, d), k')
    ensures ScanStart(x) == ScanStart(y) + k'
  {
    if x.overflow.None? {
      k' := 0;
      SuffixSelf(d);
    } else {
      k' := k;
      SuffixAppend(x.overflow.value, y.overflow.value, d, k);
    }
  }

  /** The automaton path on similar states. */
  lemma ScanSim(x: Scanner, y: Scanner, k: int, d: seq<Byte>) returns (k': int)
    requires CallSim(x, y, k) && |d| > 0 && !x.fault
    ensures CallSim(Scan(x, d), Scan(y, d), k')
  {
    k' := ResumeSim(x, y, k, d);
    var xb, yb := ScanBuffer(x, d), ScanBuffer(y, d);
    RunSim(Resume(x, d), Resume(y, d), xb, yb, ScanStart(x), ScanStart(y), k');
    CarryOverSim(Run(Resume(x, d), xb, ScanStart(x)), Run(Resume(y, d), yb, ScanStart(y)), xb, yb, k');
  }

  /** Similar states stay similar through any call with the same chunk. */
  lemma ExecuteSim(x: Scanner, y: Scanner, k: int, d: seq<Byte>) returns (k': int)
    requires CallSim(x, y, k)
    ensures CallSim(Execute(x, d), Execute(y, d), k')
  {
    k' := k;
    if |d| == 0 || x.fault {
    } else if x.cs == 0 && ScanForStart(d) == -1 {
      assert Execute(x, d) == x.(sink := EchoAll(x.sink, d));
      assert Execute(y, d) == y.(sink := EchoAll(y.sink, d));
    } else {
      k' := ScanSim(x, y, k, d);
      assert Execute(x, d) == Scan(x, d) && Execute(y, d) == Scan(y, d);
    }
  }

  /** `ScanSplit` when the first chunk leaves a fault: nothing more happens either way. */
  lemma SplitFault(W: Scanner, M: Scanner, A: seq<Byte>, b: seq<Byte>)
    requires Inv(M, |A|) && M.fault && |b| > 0
    requires Sim(W, Run(M, A + b, |A|), 0) && Resting(CarryOver(W, A + b)) && Resting(CarryOver(M, A))
    ensures CallSim(CarryOver(W, A + b), Execute(CarryOver(M, A), b), 0)
  {
    RunStops(M, A + b, |A|);
  }

  /** `ScanSplit` when the first chunk ends inside a tag: the second call goes on scanning the
      same overflow buffer, as the single call does. */
  lemma SplitCarried(W: Scanner, M: Scanner, A: seq<Byte>, b: seq<Byte>)
    requires Inv(M, |A|) && !M.fault && M.cs != ESI_START && M.cs != 0 && M.mark != Null && |b| > 0
    requires Sim(W, Run(M, A + b, |A|), 0) && Resting(CarryOver(W, A + b)) && Resting(CarryOver(M, A))
    ensures CallSim(CarryOver(W, A + b), Execute(CarryOver(M, A), b), 0)
  {
    var y1 := CarryOver(M, A);
    var Y := Resume(y1, b);
    assert Y == M.(overflow := Some(A + b));
    assert ScanBuffer(y1, b) == A + b && ScanStart(y1) == |A|;
    SuffixSelf(A + b);
    RunSim(M, Y, A + b, A + b, |A|, |A|, 0);
    SimTrans(W, Run(M, A + b, |A|), Run(Y, A + b, |A|), 0, 0, 0);
    CarryOverSim(W, Run(Y, A + b, |A|), A + b, A + b, 0);
    assert Execute(y1, b) == CarryOver(Run(Y, A + b, |A|), A + b);
  }

  /** `ScanSplit` when the first chunk ends in 0 or the start state: the second call scans the
      second chunk alone, from offset 0. */
  lemma SplitFresh(W: Scanner, M: Scanner, A: seq<Byte>, b: seq<Byte>)
    requires Inv(M, |A|) && !M.fault && (M.cs == ESI_START || M.cs == 0) && M.mark != Null && |b| > 0
    requires Sim(W, Run(M, A + b, |A|), 0) && Resting(CarryOver(W, A + b)) && Resting(CarryOver(M, A))
    ensures CallSim(CarryOver(W, A + b), Execute(CarryOver(M, A), b), |A|)
  {
    var y1 := CarryOver(M, A);
    var Y := Resume(y1, b);
    assert ScanBuffer(y1, b) == b && ScanStart(y1) == 0;
    assert Sim(M, Y, |A|);
    SuffixSplit(A, b);
    RunSim(M, Y, A + b, b, |A|, 0, |A|);
    SimTrans(W, Run(M, A + b, |A|), Run(Y, b, 0), 0, |A|, |A|);
    CarryOverSim(W, Run(Y, b, 0), A + b, b, |A|);
    assert Scan(y1, b) == CarryOver(Run(Y, b, 0), b);
    ExecuteNearScan(y1, b);
    CallSimTrans(CarryOver(W, A + b), Scan(y1, b), Execute(y1, b), |A|, 0, |A|);
  }

  /** One call with `a + b` against a call with `a` run by the automaton and then a call with
      `b`. */
  lemma ScanSplit(s: Scanner, a: seq<Byte>, b: seq<Byte>) returns (k: int)
    requires Resting(s) && !s.fault && |a| > 0 && |b| > 0
    ensures CallSim(Scan(s, a + b), Execute(Scan(s, a), b), k)
  {
    var A := ScanBuffer(s, a);
    assert ScanBuffer(s, a + b) == A + b;
    var p := ScanStart(s);
    var R, R' := Resume(s, a + b), Resume(s, a);
    RunPrefixSim(R, R', A, b, p);
    var M := Run(R', A, p);
    var W := Run(R, A + b, p);
    assert Scan(s, a) == CarryOver(M, A);
    assert Scan(s, a + b) == CarryOver(W, A + b);
    if M.fault {
      SplitFault(W, M, A, b);
      k := 0;
    } else if M.cs != ESI_START && M.cs != 0 {
      SplitCarried(W, M, A, b);
      k := 0;
    } else {
      SplitFresh(W, M, A, b);
      k := |A|;
    }
  }

  /** Restartability: feeding a text in two chunks, however it is split, gives the same state,
      staged bytes, handler calls, output, attributes and fault as feeding it in one, and
      leaves a tag unfinished exactly when the single call does. */
  lemma ExecuteSplit(s: Scanner, a: seq<Byte>, b: seq<Byte>)
    requires Resting(s)
    ensures Agree(Execute(s, a + b), Execute(Execute(s, a), b))
  {
    if |a| == 0 {
      assert a + b == b;
    } else if |b| == 0 {
      assert a + b == a;
    } else if !s.fault {
      ExecuteNearScan(s, a + b);
      var k1 := ScanSplit(s, a, b);
      CallSimTrans(Execute(s, a + b), Scan(s, a + b), Execute(Scan(s, a), b), 0, k1, k1);
      ExecuteNearScan(s, a);
      var k2 := ExecuteSim(Scan(s, a), Execute(s, a), 0, b);
      CallSimTrans(Execute(s, a + b), Execute(Scan(s, a), b), Execute(Execute(s, a), b), k1, k2, k1 + k2);
    }
  }
}
