/** The scanner never invents, repeats or reorders output: every byte it lets through, and
    every byte it still holds staged, is one of the bytes it was given, in the order given. */
module EsiOutput {
  import opened Bytes
  import opened EsiMachine
  import opened EsiScan

  /** `a` is `b` with some bytes left out. */
  predicate IsSubsequence(a: seq<Byte>, b: seq<Byte>)
    decreases |b|
  {
    if a == [] then true
    else if b == [] then false
    else if a[|a| - 1] == b[|b| - 1] then IsSubsequence(a[..|a| - 1], b[..|b| - 1])
    else IsSubsequence(a, b[..|b| - 1])
  }

  lemma {:induction false} SubsequenceRefl(a: seq<Byte>)
    ensures IsSubsequence(a, a)
    decreases |a|
  {
    if a != [] {
      SubsequenceRefl(a[..|a| - 1]);
    }
  }

  /** A byte added at the end of both keeps the relation. */
  lemma SubsequenceSnoc(a: seq<Byte>, b: seq<Byte>, x: Byte)
    requires IsSubsequence(a, b)
    ensures IsSubsequence(a + [x], b + [x])
  {
    assert (a + [x])[..|a|] == a && (b + [x])[..|b|] == b;
  }

  /** A byte added at the end of the longer one keeps the relation. */
  lemma {:induction false} SubsequenceExtend(a: seq<Byte>, b: seq<Byte>, x: Byte)
    requires IsSubsequence(a, b)
    ensures IsSubsequence(a, b + [x])
    decreases |b|, 1
  {
    assert (b + [x])[..|b|] == b;
    if a != [] && a[|a| - 1] == x {
      SubsequenceDropLast(a, b);
    }
  }

  /** Leaving out the last byte of the shorter one keeps the relation. */
  lemma {:induction false} SubsequenceDropLast(a: seq<Byte>, b: seq<Byte>)
    requires IsSubsequence(a, b) && a != []
    ensures IsSubsequence(a[..|a| - 1], b)
    decreases |b|, 0
  {
    var b' := b[..|b| - 1];
    assert b' + [b[|b| - 1]] == b;
    if a[|a| - 1] != b[|b| - 1] {
      SubsequenceDropLast(a, b');
    }
    SubsequenceExtend(a[..|a| - 1], b', b[|b| - 1]);
  }

  /** Leaving out a tail of the shorter one keeps the relation. */
  lemma {:induction false} SubsequencePrefix(a: seq<Byte>, b: seq<Byte>, n: nat)
    requires IsSubsequence(a, b) && n <= |a|
    ensures IsSubsequence(a[..n], b)
    decreases |a| - n
  {
    if n == |a| {
      assert a[..n] == a;
    } else {
      SubsequenceDropLast(a, b);
      SubsequencePrefix(a[..|a| - 1], b, n);
      assert a[..|a| - 1][..n] == a[..n];
    }
  }

  /** One byte either joins what is emitted or staged, after everything emitted or staged
      before it, or is dropped together with everything staged; nothing emitted is taken back. */
  lemma StepOutput(t: Scanner, buf: seq<Byte>, i: int)
    requires Inv(t, i) && i < |buf| && !t.fault
    ensures var t' := Step(t, buf, i);
            && Emitted(t.sink) <= Emitted(t'.sink)
            && (|| Emitted(t'.sink) + t'.echo == Emitted(t.sink) + t.echo + [buf[i]]
                || (Emitted(t'.sink) == Emitted(t.sink) && t'.echo == []))
  {
    var m := Transition(t.cs, buf[i]);
    var e := EchoStep(t, m.target, buf[i]);
    assert Step(t, buf, i) == ApplyAction(e, m.action, buf, i);
  }

  /** The bytes emitted past `before` followed by the bytes staged. */
  function Tail(before: Sink, t: Scanner): seq<Byte>
    requires Emitted(before) <= Emitted(t.sink)
  {
    Emitted(t.sink)[|Emitted(before)|..] + t.echo
  }

  lemma TailStep(before: Sink, t: Scanner, t': Scanner, x: seq<Byte>, b: Byte)
    requires Emitted(before) <= Emitted(t.sink) <= Emitted(t'.sink)
    requires IsSubsequence(Tail(before, t), x)
    requires || Emitted(t'.sink) + t'.echo == Emitted(t.sink) + t.echo + [b]
             || (Emitted(t'.sink) == Emitted(t.sink) && t'.echo == [])
    ensures IsSubsequence(Tail(before, t'), x + [b])
  {
    var n := |Emitted(before)|;
    if Emitted(t'.sink) + t'.echo == Emitted(t.sink) + t.echo + [b] {
      TailGrows(Emitted(t.sink), t.echo, Emitted(t'.sink), t'.echo, n, b);
      SubsequenceSnoc(Tail(before, t), x, b);
    } else {
      TailDrops(Emitted(t.sink), t.echo, n);
      SubsequencePrefix(Tail(before, t), x, |Emitted(t.sink)| - n);
      SubsequenceExtend(Tail(before, t'), x, b);
    }
  }

  lemma TailGrows(out: seq<Byte>, echo: seq<Byte>, out': seq<Byte>, echo': seq<Byte>, n: nat, b: Byte)
    requires n <= |out| <= |out'| && out' + echo' == out + echo + [b]
    ensures out'[n..] + echo' == out[n..] + echo + [b]
  {
    var whole := out + echo + [b];
    assert (out' + echo')[n..] == out'[n..] + echo';
    assert whole[n..] == out[n..] + echo + [b];
  }

  lemma TailDrops(out: seq<Byte>, echo: seq<Byte>, n: nat)
    requires n <= |out|
    ensures out[n..] + [] == (out[n..] + echo)[..|out| - n]
  {
  }

  lemma {:induction false} RunOutput(s: Scanner, t: Scanner, buf: seq<Byte>, p: int, i: int)
    requires Inv(t, i) && 0 <= p <= i <= |buf|
    requires Emitted(s.sink) <= Emitted(t.sink)
    requires IsSubsequence(Tail(s.sink, t), s.echo + buf[p..i])
    ensures var r := Run(t, buf, i);
            Emitted(s.sink) <= Emitted(r.sink) && IsSubsequence(Tail(s.sink, r), s.echo + buf[p..])
    decreases |buf| - i
  {
    if i == |buf| || t.fault {
      RunStops(t, buf, i);
      TailReachesEnd(s, t, buf, p, i);
    } else {
      TailAfterStep(s, t, buf, p, i);
      RunOutput(s, Step(t, buf, i), buf, p, i + 1);
      RunUnfold(t, buf, i);
    }
  }

  /** What is carried at a position is carried to the end of the buffer. */
  lemma TailReachesEnd(s: Scanner, t: Scanner, buf: seq<Byte>, p: int, i: int)
    requires 0 <= p <= i <= |buf| && Emitted(s.sink) <= Emitted(t.sink)
    requires IsSubsequence(Tail(s.sink, t), s.echo + buf[p..i])
    ensures IsSubsequence(Tail(s.sink, t), s.echo + buf[p..])
  {
    assert buf[p..i] <= buf[p..];
    SubsequenceGrow(Tail(s.sink, t), s.echo + buf[p..i], s.echo + buf[p..]);
  }

  /** One byte of the run keeps what `RunOutput` carries from one position to the next. */
  lemma TailAfterStep(s: Scanner, t: Scanner, buf: seq<Byte>, p: int, i: int)
    requires Inv(t, i) && 0 <= p <= i < |buf| && !t.fault
    requires Emitted(s.sink) <= Emitted(t.sink)
    requires IsSubsequence(Tail(s.sink, t), s.echo + buf[p..i])
    ensures var t' := Step(t, buf, i);
            Emitted(s.sink) <= Emitted(t'.sink) && IsSubsequence(Tail(s.sink, t'), s.echo + buf[p..i + 1])
  {
    var t' := Step(t, buf, i);
    StepOutput(t, buf, i);
    TailStep(s.sink, t, t', s.echo + buf[p..i], buf[i]);
    SliceSnoc(s.echo, buf, p, i);
  }

  /** The slice of the buffer grown by one byte. */
  lemma SliceSnoc(e: seq<Byte>, buf: seq<Byte>, p: int, i: int)
    requires 0 <= p <= i < |buf|
    ensures e + buf[p..i] + [buf[i]] == e + buf[p..i + 1]
  {
    assert buf[p..i + 1] == buf[p..i] + [buf[i]];
  }

  /** A longer sequence with the same beginning keeps the relation. */
  lemma {:induction false} SubsequenceGrow(a: seq<Byte>, b: seq<Byte>, c: seq<Byte>)
    requires IsSubsequence(a, b) && b <= c
    ensures IsSubsequence(a, c)
    decreases |c| - |b|
  {
    if |b| == |c| {
      assert b == c;
    } else {
      SubsequenceExtend(a, b, c[|b|]);
      assert b + [c[|b|]] <= c;
      SubsequenceGrow(a, b + [c[|b|]], c);
    }
  }

  /** The automaton run over a buffer from position `p` emits only bytes that were staged or
      lie in the buffer from `p` on, once each and in order, and takes back nothing. */
  lemma RunNeverInventsOutput(s: Scanner, buf: seq<Byte>, p: int)
    requires Inv(s, p) && p <= |buf|
    ensures var r := Run(s, buf, p);
            Emitted(s.sink) <= Emitted(r.sink)
            && IsSubsequence(Emitted(r.sink)[|Emitted(s.sink)|..] + r.echo, s.echo + buf[p..])
  {
    assert Tail(s.sink, s) == s.echo && buf[p..p] == [];
    assert s.echo + buf[p..p] == s.echo;
    SubsequenceRefl(s.echo);
    RunOutput(s, s, buf, p, p);
  }

  /** A call of `esi_parser_execute` lets through, and leaves staged, only bytes that were staged
      before it or are in the chunk, each at most once and in order. */
  lemma ExecuteNeverInventsOutput(s: Scanner, data: seq<Byte>)
    requires Resting(s)
    ensures var r := Execute(s, data);
            Emitted(s.sink) <= Emitted(r.sink)
            && IsSubsequence(Emitted(r.sink)[|Emitted(s.sink)|..] + r.echo, s.echo + data)
  {
    var r := Execute(s, data);
    if |data| == 0 || s.fault {
      assert Emitted(r.sink)[|Emitted(s.sink)|..] + r.echo == s.echo;
      SubsequenceRefl(s.echo);
      SubsequenceGrow(s.echo, s.echo, s.echo + data);
    } else if s.cs == 0 && ScanForStart(data) == -1 {
      assert Emitted(r.sink)[|Emitted(s.sink)|..] + r.echo == data;
      assert s.echo + data == data;
      SubsequenceRefl(data);
    } else {
      var buf := ScanBuffer(s, data);
      var t := Resume(s, data);
      RunNeverInventsOutput(t, buf, ScanStart(s));
      assert buf[ScanStart(s)..] == data;
    }
  }
}
