/**
 * The streaming rate converter: a polyphase filter that keeps a short history
 * and one counter between chunks. However the stream is cut, it is the
 * textbook conversion - stuff zeros, filter, keep every so many samples -
 * exactly when the longest jump between outputs fits its history.
 */
module Resampler {
  import opened Prelude

  /** A conversion by `up / down` with `quality * up` filter taps. */
  datatype Filter = Filter(up: nat, down: nat, quality: nat, taps: seq<real>)

  predicate WellFormed(f: Filter) { f.up >= 1 && f.down >= 1 && |f.taps| == f.quality * f.up }

  // ----- The textbook conversion of a whole stream -----

  /** The stream, silent before it starts and after it ends. */
  function Sample(stream: seq<real>, i: int): real { if 0 <= i < |stream| then stream[i] else 0.0 }

  /** The stream with `up - 1` zeros after every sample. */
  function Stuffed(stream: seq<real>, up: nat, j: int): real
    requires up >= 1
  {
    if j % up == 0 then Sample(stream, j / up) else 0.0
  }

  /** The first `n` terms of the convolution with the taps, at `j`. */
  function Convolved(f: Filter, stream: seq<real>, j: int, n: nat): real
    requires WellFormed(f) && n <= |f.taps|
  {
    if n == 0 then 0.0 else Convolved(f, stream, j, n - 1) + f.taps[n - 1] * Stuffed(stream, f.up, j - (n - 1))
  }

  /** How many outputs a stream of `n` samples has: n * up / down, rounded up. */
  function Due(f: Filter, n: nat): nat
    requires WellFormed(f)
  {
    (n * f.up + f.down - 1) / f.down
  }

  function Textbook(f: Filter, stream: seq<real>): (out: seq<real>)
    requires WellFormed(f)
    ensures |out| == Due(f, |stream|)
  {
    seq(Due(f, |stream|), m requires 0 <= m => Convolved(f, stream, m * f.down, |f.taps|))
  }

  // ----- The converter -----

  datatype State = State(history: seq<real>, made: nat)

  function Zeros(n: nat): seq<real> { seq(n, i => 0.0) }

  function Fresh(f: Filter): State { State(Zeros(f.quality), 0) }

  /** A slice as Python takes it: bounds past the end are cut off. */
  function Slice(s: seq<real>, lo: nat, hi: nat): seq<real>
  {
    if lo >= |s| || hi <= lo then [] else s[lo..if hi <= |s| then hi else |s|]
  }

  /** The last input output `m` needs. */
  function Newest(f: Filter, m: nat): nat
    requires WellFormed(f)
  {
    DivNat(m * f.down, f.up);
    m * f.down / f.up
  }

  lemma DivNat(a: nat, b: nat)
    requires b >= 1
    ensures a / b >= 0
  {}

  /** One output: every `up`-th tap, against the samples back from `newest`. */
  function Weighed(f: Filter, samples: seq<real>, phase: nat, newest: int, q: nat): real
    requires WellFormed(f) && phase < f.up && q <= f.quality && newest < |samples| && q <= newest + 1
  {
    if q == 0 then 0.0
    else
      TapInRange(f, phase, q - 1);
      Weighed(f, samples, phase, newest, q - 1) + f.taps[phase + (q - 1) * f.up] * samples[newest - (q - 1)]
  }

  lemma TapInRange(f: Filter, phase: nat, k: nat)
    requires WellFormed(f) && phase < f.up && k < f.quality
    ensures 0 <= phase + k * f.up < |f.taps|
  {
    assert (k + 1) * f.up <= f.quality * f.up by { MulMonotone(k + 1, f.quality, f.up); }
    assert (k + 1) * f.up == k * f.up + f.up;
  }

  lemma MulMonotone(a: nat, b: nat, c: nat)
    requires a <= b
    ensures a * c <= b * c
  {
    assert b * c == a * c + (b - a) * c;
  }

  lemma DivMonotone(a: nat, b: nat, c: nat)
    requires a <= b && c >= 1
    ensures a / c <= b / c
  {
    var x, y := a / c, b / c;
    assert a == x * c + a % c && b == y * c + b % c && (y + 1) * c == y * c + c;
    if y + 1 <= x { MulMonotone(y + 1, x, c); }
  }

  lemma NewestGrows(f: Filter, m: nat, n: nat)
    requires WellFormed(f) && m <= n
    ensures Newest(f, m) <= Newest(f, n)
  {
    MulMonotone(m, n, f.down);
    DivMonotone(m * f.down, n * f.down, f.up);
  }

  /** Every output that the samples allow, from output `made` on; `base` is where the history ends. */
  function Emitted(f: Filter, samples: seq<real>, base: nat, made: nat): (r: (seq<real>, nat))
    requires WellFormed(f) && base <= Newest(f, made)
    ensures r.1 == made + |r.0|
    decreases (|samples| + base) * f.up - made * f.down
  {
    var newest := Newest(f, made) - base + f.quality;
    if newest >= |samples| then ([], made)
    else
      EmitTerminates(f, |samples|, base, made);
      NewestGrows(f, made, made + 1);
      var rest := Emitted(f, samples, base, made + 1);
      ([Weighed(f, samples, made * f.down % f.up, newest, f.quality)] + rest.0, rest.1)
  }

  lemma EmitTerminates(f: Filter, n: nat, base: nat, made: nat)
    requires WellFormed(f) && Newest(f, made) - base + f.quality < n
    ensures 0 <= (n + base) * f.up - (made + 1) * f.down + f.down
    ensures (made + 1) * f.down == made * f.down + f.down
    ensures made * f.down < (n + base) * f.up
  {
    var p := made * f.down;
    assert p < (p / f.up + 1) * f.up by { assert p == p / f.up * f.up + p % f.up; assert (p / f.up + 1) * f.up == p / f.up * f.up + f.up; }
    MulMonotone(p / f.up + 1, n + base, f.up);
  }

  /** One chunk through the converter: its outputs and the state it leaves. */
  function FeedChunk(f: Filter, s: State, chunk: seq<real>): (seq<real>, State)
    requires WellFormed(f)
  {
    var samples, base := s.history + chunk, Newest(f, s.made);
    var r := Emitted(f, samples, base, s.made);
    NewestGrows(f, s.made, r.1);
    var kept := Newest(f, r.1) - base;
    (r.0, State(Slice(samples, kept, kept + f.quality), r.1))
  }

  /** A sequence of chunks through the converter. */
  function FeedAll(f: Filter, s: State, chunks: seq<seq<real>>): (seq<real>, State)
    requires WellFormed(f)
    decreases |chunks|
  {
    if chunks == [] then ([], s)
    else
      var r := FeedChunk(f, s, chunks[0]);
      var rest := FeedAll(f, r.1, chunks[1..]);
      (r.0 + rest.0, rest.1)
  }

  function Joined(chunks: seq<seq<real>>): seq<real>
  {
    if chunks == [] then [] else chunks[0] + Joined(chunks[1..])
  }

  // ----- Polyphase and textbook agree on one output -----

  lemma ModBlock(p: nat, up: nat, k: nat, r: nat)
    requires up >= 1 && r < up
    ensures (p - (k * up + r)) % up == 0 <==> r == p % up
    ensures r == p % up ==> (p - (k * up + r)) / up == p / up - k
  {
    var d := p - (k * up + r);
    var e := p % up - r;
    assert p == p / up * up + p % up;
    assert d == (p / up - k) * up + e by { assert (p / up - k) * up == p / up * up - k * up; }
    if e == 0 { DivModExact(d, p / up - k, 0, up); }
    else if e > 0 { DivModExact(d, p / up - k, e, up); }
    else { DivModExact(d, p / up - k - 1, e + up, up); assert (p / up - k - 1) * up == (p / up - k) * up - up; }
  }

  lemma DivModExact(d: int, q: int, r: int, up: nat)
    requires up >= 1 && 0 <= r < up && d == q * up + r
    ensures d / up == q && d % up == r
  {
    var x := d / up;
    assert d == x * up + d % up && (x - q) * up == x * up - q * up && (q - x) * up == q * up - x * up && 1 * up == up;
    if x > q { MulMonotone(1, x - q, up); }
    if x < q { MulMonotone(1, q - x, up); }
  }

  /** Of the `up` taps in a block, only the one in phase meets a sample. */
  lemma {:induction false} Block(f: Filter, stream: seq<real>, p: nat, k: nat, r: nat)
    requires WellFormed(f) && k < f.quality && r <= f.up
    ensures k * f.up + r <= |f.taps| && 0 <= p % f.up + k * f.up < |f.taps|
    ensures Convolved(f, stream, p, k * f.up + r) ==
      Convolved(f, stream, p, k * f.up) + if p % f.up < r then f.taps[p % f.up + k * f.up] * Sample(stream, p / f.up - k) else 0.0
    decreases r
  {
    TapInRange(f, p % f.up, k);
    TapInRange(f, f.up - 1, k);
    if r > 0 {
      Block(f, stream, p, k, r - 1);
      ModBlock(p, f.up, k, r - 1);
    }
  }

  /** The first `q` taps of a phase, against the stream back from the sample of output position `p`. */
  function Poly(f: Filter, stream: seq<real>, p: nat, q: nat): real
    requires WellFormed(f) && q <= f.quality
  {
    if q == 0 then 0.0
    else
      TapInRange(f, p % f.up, q - 1);
      Poly(f, stream, p, q - 1) + f.taps[p % f.up + (q - 1) * f.up] * Sample(stream, p / f.up - (q - 1))
  }

  lemma NextBlock(f: Filter, q: nat)
    requires WellFormed(f) && 1 <= q <= f.quality
    ensures q * f.up == (q - 1) * f.up + f.up && q * f.up <= |f.taps|
  {
    MulMonotone(q, f.quality, f.up);
  }

  lemma {:induction false} PolyIsConvolution(f: Filter, stream: seq<real>, p: nat, q: nat)
    requires WellFormed(f) && q <= f.quality
    ensures q * f.up <= |f.taps| && Convolved(f, stream, p, q * f.up) == Poly(f, stream, p, q)
  {
    hide Convolved, Sample;
    if q > 0 {
      NextBlock(f, q);
      PolyIsConvolution(f, stream, p, q - 1);
      Block(f, stream, p, q - 1, f.up);
      assert p % f.up < f.up;
    } else {
      NothingConvolved(f, stream, p);
    }
  }

  lemma NothingConvolved(f: Filter, stream: seq<real>, p: nat)
    requires WellFormed(f)
    ensures 0 * f.up == 0 && Convolved(f, stream, p, 0) == 0.0
  {}

  lemma OutputIsPoly(f: Filter, stream: seq<real>, p: nat)
    requires WellFormed(f)
    ensures Convolved(f, stream, p, |f.taps|) == Poly(f, stream, p, f.quality)
  {
    PolyIsConvolution(f, stream, p, f.quality);
  }

  /** An output only depends on the samples up to its own. */
  lemma {:induction false} PolyPrefix(f: Filter, stream: seq<real>, more: seq<real>, p: nat, q: nat)
    requires WellFormed(f) && q <= f.quality && p / f.up < |stream|
    ensures Poly(f, stream + more, p, q) == Poly(f, stream, p, q)
  {
    if q > 0 { PolyPrefix(f, stream, more, p, q - 1); }
  }

  // ----- The converter, chunk by chunk -----

  /** The longest jump between the last inputs of two outputs leaves no gap behind the history. */
  predicate Fits(f: Filter)
    requires WellFormed(f)
  {
    (f.down + f.up - 1) / f.up <= f.quality + 1
  }

  /** `samples` are those of the stream, from `quality` before `base` to its end. */
  ghost predicate Window(f: Filter, samples: seq<real>, base: nat, stream: seq<real>)
  {
    && |samples| + base == f.quality + |stream|
    && forall i :: 0 <= i < |samples| ==> samples[i] == Sample(stream, base - f.quality + i)
  }

  /** The state of a converter that has been fed a stream: every output due is made, and the history is in place. */
  ghost predicate Aligned(f: Filter, s: State, stream: seq<real>)
    requires WellFormed(f)
  {
    && Newest(f, s.made) >= |stream| && (s.made > 0 ==> Newest(f, s.made - 1) < |stream|)
    && Window(f, s.history, Newest(f, s.made), stream)
  }

  lemma FreshAligned(f: Filter)
    requires WellFormed(f)
    ensures Aligned(f, Fresh(f), [])
  {
    assert 0 * f.down == 0 && 0 / f.up == 0;
  }

  lemma {:induction false} WeighedIsPoly(f: Filter, samples: seq<real>, base: nat, stream: seq<real>, p: nat, q: nat)
    requires WellFormed(f) && Window(f, samples, base, stream) && q <= f.quality && base <= p / f.up < |stream|
    ensures Weighed(f, samples, p % f.up, p / f.up - base + f.quality, q) == Poly(f, stream, p, q)
  {
    if q > 0 { WeighedIsPoly(f, samples, base, stream, p, q - 1); }
  }

  /** What one call emits: the outputs whose inputs have all arrived, each the textbook's. */
  lemma {:induction false} EmittedOutputs(f: Filter, samples: seq<real>, base: nat, made: nat, stream: seq<real>)
    requires WellFormed(f) && Window(f, samples, base, stream) && base <= Newest(f, made)
    ensures var r := Emitted(f, samples, base, made);
      && Newest(f, r.1) >= |stream| && (r.1 > made ==> Newest(f, r.1 - 1) < |stream|)
      && forall i :: 0 <= i < |r.0| ==> r.0[i] == Poly(f, stream, (made + i) * f.down, f.quality)
    decreases (|samples| + base) * f.up - made * f.down
  {
    var newest := Newest(f, made) - base + f.quality;
    if newest < |samples| {
      EmitTerminates(f, |samples|, base, made);
      NewestGrows(f, made, made + 1);
      EmittedOutputs(f, samples, base, made + 1, stream);
      WeighedIsPoly(f, samples, base, stream, made * f.down, f.quality);
    }
  }

  /** The distance from one output's last input to the next one's is at most down / up, rounded up. */
  lemma Jump(f: Filter, m: nat)
    requires WellFormed(f)
    ensures Newest(f, m + 1) <= Newest(f, m) + (f.down + f.up - 1) / f.up
  {
    var p, u, d := m * f.down, f.up, f.down;
    var x, c := p / u, (d + u - 1) / u;
    assert (m + 1) * d == p + d;
    assert p == x * u + p % u && d + u - 1 == c * u + (d + u - 1) % u;
    assert (x + c + 1) * u == x * u + c * u + u;
    assert p + d < (x + c + 1) * u;
    var y := (p + d) / u;
    assert p + d == y * u + (p + d) % u;
    if y >= x + c + 1 { MulMonotone(x + c + 1, y, u); }
  }

  lemma WindowMore(f: Filter, history: seq<real>, base: nat, stream: seq<real>, chunk: seq<real>)
    requires Window(f, history, base, stream) && base >= |stream|
    ensures Window(f, history + chunk, base, stream + chunk)
  {
    var samples := history + chunk;
    forall i | 0 <= i < |samples| ensures samples[i] == Sample(stream + chunk, base - f.quality + i) {}
  }

  /** One chunk: what comes out is the textbook's, and the state stays aligned. */
  lemma FeedAligned(f: Filter, s: State, stream: seq<real>, chunk: seq<real>)
    requires WellFormed(f) && Fits(f) && Aligned(f, s, stream)
    ensures var r := FeedChunk(f, s, chunk);
      && Aligned(f, r.1, stream + chunk) && r.1.made == s.made + |r.0|
      && forall i :: 0 <= i < |r.0| ==> r.0[i] == Poly(f, stream + chunk, (s.made + i) * f.down, f.quality)
  {
    hide Window, Slice, Emitted;
    var samples, base, longer := s.history + chunk, Newest(f, s.made), stream + chunk;
    WindowMore(f, s.history, base, stream, chunk);
    EmittedOutputs(f, samples, base, s.made, longer);
    var made := Emitted(f, samples, base, s.made).1;
    NewestGrows(f, s.made, made);
    if made > s.made { Jump(f, made - 1); } else { WindowReach(f, s.history, base, stream); }
    KeepWindow(f, samples, base, Newest(f, made), longer);
  }

  lemma WindowReach(f: Filter, history: seq<real>, base: nat, stream: seq<real>)
    requires Window(f, history, base, stream)
    ensures base <= |stream| + f.quality
  {}

  /** What is kept for the next call, when its base is not beyond what the slice can reach. */
  lemma KeepWindow(f: Filter, samples: seq<real>, base: nat, next: nat, stream: seq<real>)
    requires Window(f, samples, base, stream) && base <= next && |stream| <= next <= |stream| + f.quality
    ensures Window(f, Slice(samples, next - base, next - base + f.quality), next, stream)
  {
    assert Slice(samples, next - base, next - base + f.quality) == samples[next - base..];
  }

  /** Outputs already made stay the textbook's as the stream goes on. */
  ghost predicate Right(f: Filter, out: seq<real>, from: nat, stream: seq<real>)
    requires WellFormed(f)
  {
    forall i :: 0 <= i < |out| ==> out[i] == Poly(f, stream, (from + i) * f.down, f.quality)
  }

  lemma RightStays(f: Filter, out: seq<real>, from: nat, stream: seq<real>, more: seq<real>)
    requires WellFormed(f) && Right(f, out, from, stream) && (out != [] ==> Newest(f, from + |out| - 1) < |stream|)
    ensures Right(f, out, from, stream + more)
  {
    forall i | 0 <= i < |out| ensures out[i] == Poly(f, stream + more, (from + i) * f.down, f.quality) {
      NewestGrows(f, from + i, from + |out| - 1);
      PolyPrefix(f, stream, more, (from + i) * f.down, f.quality);
    }
  }

  /** The converter's part of a run: aligned, with as many outputs as it counts, all of them right. */
  ghost predicate Ran(f: Filter, s: State, r: (seq<real>, State), stream: seq<real>)
    requires WellFormed(f)
  {
    Aligned(f, r.1, stream) && r.1.made == s.made + |r.0| && Right(f, r.0, s.made, stream)
  }

  lemma {:induction false} FeedAllAligned(f: Filter, s: State, stream: seq<real>, chunks: seq<seq<real>>)
    requires WellFormed(f) && Fits(f) && Aligned(f, s, stream)
    ensures Ran(f, s, FeedAll(f, s, chunks), stream + Joined(chunks))
    decreases |chunks|
  {
    hide Aligned, Fits, WellFormed, FeedChunk, Right;
    if chunks == [] {
      assert stream + [] == stream;
      assert Right(f, [], s.made, stream) by { NothingRight(f, s.made, stream); }
    } else {
      var one := FeedChunk(f, s, chunks[0]);
      var rest := FeedAll(f, one.1, chunks[1..]);
      FeedRan(f, s, stream, chunks[0]);
      FeedAllAligned(f, one.1, stream + chunks[0], chunks[1..]);
      assert stream + chunks[0] + Joined(chunks[1..]) == stream + Joined(chunks);
      RanOn(f, s, one, rest, stream + chunks[0], Joined(chunks[1..]));
    }
  }

  lemma NothingRight(f: Filter, from: nat, stream: seq<real>)
    requires WellFormed(f)
    ensures Right(f, [], from, stream)
  {}

  lemma FeedRan(f: Filter, s: State, stream: seq<real>, chunk: seq<real>)
    requires WellFormed(f) && Fits(f) && Aligned(f, s, stream)
    ensures Ran(f, s, FeedChunk(f, s, chunk), stream + chunk)
  {
    FeedAligned(f, s, stream, chunk);
  }

  lemma RanOn(f: Filter, s: State, one: (seq<real>, State), rest: (seq<real>, State), stream: seq<real>, more: seq<real>)
    requires WellFormed(f) && Ran(f, s, one, stream) && Ran(f, one.1, rest, stream + more)
    ensures Ran(f, s, (one.0 + rest.0, rest.1), stream + more)
  {
    hide Window;
    RightStays(f, one.0, s.made, stream, more);
    RightJoins(f, one.0, rest.0, s.made, stream + more);
  }

  lemma RightJoins(f: Filter, x: seq<real>, y: seq<real>, from: nat, stream: seq<real>)
    requires WellFormed(f) && Right(f, x, from, stream) && Right(f, y, from + |x|, stream)
    ensures Right(f, x + y, from, stream)
  {}

  lemma DueAtMost(f: Filter, m: nat, n: nat)
    requires WellFormed(f) && Newest(f, m) >= n
    ensures Due(f, n) <= m
  {
    var d, u, due, p := f.down, f.up, Due(f, n), m * f.down;
    assert n * u <= p by { assert p == p / u * u + p % u; MulMonotone(n, p / u, u); }
    assert n * u + d - 1 == due * d + (n * u + d - 1) % d;
    assert (m + 1) * d == p + d;
    if due >= m + 1 { MulMonotone(m + 1, due, d); }
  }

  lemma DueAtLeast(f: Filter, m: nat, n: nat)
    requires WellFormed(f) && Newest(f, m) < n
    ensures m < Due(f, n)
  {
    var d, u, due, o := f.down, f.up, Due(f, n), m * f.down;
    assert n * u + d - 1 == due * d + (n * u + d - 1) % d;
    assert o < n * u by { assert o == o / u * u + o % u; MulMonotone(o / u + 1, n, u); assert (o / u + 1) * u == o / u * u + u; }
    if due <= m { MulMonotone(due, m, d); }
  }

  /** However the stream is cut, a filter that fits gives the textbook's outputs: all of them, and no other. */
  lemma FitsIsTextbook(f: Filter, chunks: seq<seq<real>>)
    requires WellFormed(f) && Fits(f)
    ensures FeedAll(f, Fresh(f), chunks).0 == Textbook(f, Joined(chunks))
  {
    hide Fits, Fresh;
    var stream, r := Joined(chunks), FeedAll(f, Fresh(f), chunks);
    FreshAligned(f);
    assert Fresh(f).made == 0 by { FreshMade(f); }
    FeedAllAligned(f, Fresh(f), [], chunks);
    assert [] + stream == stream;
    MadeIsDue(f, r.1, stream);
    forall i | 0 <= i < |r.0| ensures r.0[i] == Textbook(f, stream)[i] { OutputIsPoly(f, stream, i * f.down); }
  }

  lemma MadeIsDue(f: Filter, s: State, stream: seq<real>)
    requires WellFormed(f) && Aligned(f, s, stream)
    ensures s.made == Due(f, |stream|)
  {
    hide Window;
    DueAtMost(f, s.made, |stream|);
    if s.made > 0 { DueAtLeast(f, s.made - 1, |stream|); }
  }

  lemma FreshMade(f: Filter)
    ensures Fresh(f).made == 0 && Fresh(f).history == Zeros(f.quality)
  {}

  // ----- When it does not fit -----

  lemma WholeRound(f: Filter)
    requires WellFormed(f)
    ensures Newest(f, f.up) == f.down
  {
    DivModExact(f.up * f.down, f.down, 0, f.up);
  }

  lemma Remainder(u: nat, d: nat, c: int, r: int)
    requires u >= 1 && d + u - 1 == c * u + r
    ensures (u - 1) * d == (d - c) * u + (u - 1 - r)
  {
    assert (u - 1) * d == u * d - d && (d - c) * u == d * u - c * u;
  }

  lemma RoundedUp(u: nat, d: nat)
    requires u >= 1
    ensures ((u - 1) * d) / u == d - (d + u - 1) / u
  {
    var x := d + u - 1;
    var c, r := x / u, x % u;
    Remainder(u, d, c, r);
    var y := (u - 1) * d;
    DivModExact(y, d - c, u - 1 - r, u);
  }

  /** After output `up - 1` comes the longest jump there is. */
  lemma LongestJump(f: Filter)
    requires WellFormed(f)
    ensures Newest(f, f.up) == f.down && Newest(f, f.up - 1) == f.down - (f.down + f.up - 1) / f.up
  {
    WholeRound(f);
    RoundedUp(f.up, f.down);
  }

  lemma OutgrownWindow(f: Filter, n: nat)
    requires WellFormed(f)
    ensures Window(f, Zeros(f.quality) + Zeros(n), 0, Zeros(n))
  {}

  lemma SliceGone(s: seq<real>, lo: nat, hi: nat)
    requires lo >= |s|
    ensures Slice(s, lo, hi) == []
  {}

  /** Silence up to output `up - 1`: the next output's history lies wholly beyond what has arrived. */
  lemma LosesPlace(f: Filter)
    requires WellFormed(f) && !Fits(f)
    ensures var n := Newest(f, f.up - 1) + 1; FeedChunk(f, Fresh(f), Zeros(n)).1 == State([], f.up) && |FeedChunk(f, Fresh(f), Zeros(n)).0| == f.up
  {
    hide Window;
    var n := Newest(f, f.up - 1) + 1;
    var samples := Zeros(f.quality) + Zeros(n);
    LongestJump(f);
    assert Newest(f, 0) == 0 by { assert 0 * f.down == 0; }
    OutgrownWindow(f, n);
    EmittedOutputs(f, samples, 0, 0, Zeros(n));
    var made := Emitted(f, samples, 0, 0).1;
    assert |Zeros(n)| == n;
    if made < f.up { NewestGrows(f, made, f.up - 1); }
    if made > f.up { NewestGrows(f, f.up, made - 1); }
    SliceGone(samples, Newest(f, made), Newest(f, made) + f.quality);
  }

  /** The next `quality + 1` samples then make an output whose own sample has not arrived. */
  lemma OutputTooEarly(f: Filter)
    requires WellFormed(f) && !Fits(f)
    ensures var n := Newest(f, f.up - 1) + 1;
      |FeedAll(f, Fresh(f), [Zeros(n), Zeros(f.quality + 1)]).0| > Due(f, n + f.quality + 1)
  {
    var n, next := Newest(f, f.up - 1) + 1, Zeros(f.quality + 1);
    LosesPlace(f);
    LongestJump(f);
    DueAtMost(f, f.up, n + f.quality + 1);
    var s := State([], f.up);
    assert [] + next == next;
    var second := FeedChunk(f, s, next);
    assert second.0 == Emitted(f, next, f.down, f.up).0 && |second.0| >= 1;
    TwoChunks(f, Fresh(f), Zeros(n), next);
  }

  lemma TwoChunks(f: Filter, s: State, x: seq<real>, y: seq<real>)
    requires WellFormed(f)
    ensures FeedAll(f, s, [x, y]).0 == FeedChunk(f, s, x).0 + FeedChunk(f, FeedChunk(f, s, x).1, y).0
    ensures Joined([x, y]) == x + y
  {
    hide FeedChunk;
    assert [x, y][1..] == [y] && [y][1..] == [];
    var one := FeedChunk(f, s, x);
    assert FeedAll(f, one.1, [y]).0 == FeedChunk(f, one.1, y).0 + [];
    assert Joined([y]) == y + [];
  }

  /**
   * The filter's stream function is the textbook's on every stream, cut in every way, if and only if it fits. Equal
   * rates (`up == down == 1`) fit too, but the converter then does not filter: see `Converter.Feed`.
   */
  lemma TextbookExactlyWhenFits(f: Filter)
    requires WellFormed(f)
    ensures Fits(f) <==> forall chunks :: FeedAll(f, Fresh(f), chunks).0 == Textbook(f, Joined(chunks))
  {
    hide FeedChunk, FeedAll, Textbook, Joined, Fits, Fresh;
    if Fits(f) {
      forall chunks ensures FeedAll(f, Fresh(f), chunks).0 == Textbook(f, Joined(chunks)) { FitsIsTextbook(f, chunks); }
    } else {
      var n := Newest(f, f.up - 1) + 1;
      var chunks := [Zeros(n), Zeros(f.quality + 1)];
      OutputTooEarly(f);
      TwoChunks(f, Fresh(f), Zeros(n), Zeros(f.quality + 1));
      assert |Joined(chunks)| == n + f.quality + 1;
      assert |Textbook(f, Joined(chunks))| == Due(f, n + f.quality + 1);
    }
  }

  // ----- The converter as an object -----

  function Gcd(a: nat, b: nat): (g: nat)
    requires a >= 1
    ensures g >= 1
    decreases b
  {
    if b == 0 then a else Gcd(b, a % b)
  }

  lemma {:induction false} GcdDivides(a: nat, b: nat) returns (x: nat, y: nat)
    requires a >= 1
    ensures a == x * Gcd(a, b) && b == y * Gcd(a, b)
    decreases b
  {
    if b == 0 { return 1, 0; }
    var g, q := Gcd(b, a % b), a / b;
    var u, v := GcdDivides(b, a % b);
    assert a == q * b + a % b;
    Combine(q, u, v, g);
    x, y := q * u + v, u;
  }

  /** Whatever divides both numbers divides `Gcd` of them. */
  lemma {:induction false} GcdGreatest(a: nat, b: nat, d: nat, x: nat, y: nat) returns (z: nat)
    requires a >= 1 && d >= 1 && a == x * d && b == y * d
    ensures Gcd(a, b) == z * d
    decreases b
  {
    if b == 0 { return x; }
    var q := a / b;
    Rest(q, x, y, d);
    assert a % b == a - q * b == (x - q * y) * d;
    Positive(x - q * y, d);
    z := GcdGreatest(b, a % b, d, y, x - q * y);
  }

  lemma Rest(q: nat, x: nat, y: nat, d: nat)
    ensures x * d - q * (y * d) == (x - q * y) * d
  {}

  lemma Positive(n: int, d: nat)
    requires d >= 1 && n * d >= 0
    ensures n >= 0
  {}

  lemma UnitFactor(z: nat, e: nat, g: nat)
    requires g >= 1 && g == z * (e * g)
    ensures e == 1
  {
    assert z * (e * g) == (z * e) * g;
    assert (z * e - 1) * g == 0;
    assert z * e == 1;
  }

  lemma Regroup(n: nat, g: nat, x: nat, q: nat, e: nat)
    requires g >= 1 && e >= 1 && n == x * g && n / g == q * e
    ensures n == q * (e * g) && e * g >= 1
  {
    DivModExact(n, x, 0, g);
    assert (q * e) * g == q * (e * g);
  }

  /** The ratio the converter works with is in lowest terms: its two numbers share no factor. */
  lemma LowestTerms(sourceRate: nat, targetRate: nat, e: nat, p: nat, q: nat)
    requires sourceRate >= 1 && targetRate >= 1 && e >= 1
    requires targetRate / Gcd(sourceRate, targetRate) == p * e && sourceRate / Gcd(sourceRate, targetRate) == q * e
    ensures e == 1
  {
    hide Gcd;
    var g := Gcd(sourceRate, targetRate);
    var x, y := GcdDivides(sourceRate, targetRate);
    Regroup(sourceRate, g, x, q, e);
    Regroup(targetRate, g, y, p, e);
    var z := GcdGreatest(sourceRate, targetRate, e * g, q, p);
    UnitFactor(z, e, g);
  }

  lemma Combine(q: nat, u: nat, v: nat, g: nat)
    ensures q * (u * g) + v * g == (q * u + v) * g
  {}

  lemma EmitStep(f: Filter, samples: seq<real>, base: nat, made: nat)
    requires WellFormed(f) && base <= Newest(f, made) && Newest(f, made) - base + f.quality < |samples|
    ensures base <= Newest(f, made + 1) && made * f.down % f.up < f.up
    ensures Emitted(f, samples, base, made) ==
      ([Weighed(f, samples, made * f.down % f.up, Newest(f, made) - base + f.quality, f.quality)] + Emitted(f, samples, base, made + 1).0,
       Emitted(f, samples, base, made + 1).1)
  {
    NewestGrows(f, made, made + 1);
  }

  /** Inside one call: these outputs are made, and the rest is still to come. */
  ghost predicate Underway(f: Filter, samples: seq<real>, base: nat, start: nat, out: seq<real>, made: nat)
    requires WellFormed(f)
  {
    && base <= Newest(f, start) && base <= Newest(f, made)
    && Emitted(f, samples, base, start) == (out + Emitted(f, samples, base, made).0, Emitted(f, samples, base, made).1)
  }

  lemma UnderwayStart(f: Filter, samples: seq<real>, start: nat)
    requires WellFormed(f)
    ensures Underway(f, samples, Newest(f, start), start, [], start)
  {
    var r := Emitted(f, samples, Newest(f, start), start);
    assert [] + r.0 == r.0;
  }

  lemma UnderwayStep(f: Filter, samples: seq<real>, base: nat, start: nat, out: seq<real>, made: nat)
    requires WellFormed(f) && Underway(f, samples, base, start, out, made)
    requires Newest(f, made) - base + f.quality < |samples|
    ensures Newest(f, made) >= base && made * f.down % f.up < f.up
    ensures Underway(f, samples, base, start,
      out + [Weighed(f, samples, made * f.down % f.up, Newest(f, made) - base + f.quality, f.quality)], made + 1)
  {
    hide Emitted, Weighed;
    EmitStep(f, samples, base, made);
    var value, rest := Weighed(f, samples, made * f.down % f.up, Newest(f, made) - base + f.quality, f.quality), Emitted(f, samples, base, made + 1).0;
    assert out + ([value] + rest) == out + [value] + rest;
  }

  lemma UnderwayEnd(f: Filter, samples: seq<real>, base: nat, start: nat, out: seq<real>, made: nat)
    requires WellFormed(f) && Underway(f, samples, base, start, out, made)
    requires Newest(f, made) - base + f.quality >= |samples|
    ensures base <= Newest(f, start) && base <= Newest(f, made) && Emitted(f, samples, base, start) == (out, made)
  {
    assert out + [] == out;
  }

  lemma FeedIs(f: Filter, s: State, chunk: seq<real>, out: seq<real>, made: nat)
    requires WellFormed(f) && Emitted(f, s.history + chunk, Newest(f, s.made), s.made) == (out, made)
    ensures Newest(f, made) >= Newest(f, s.made)
    ensures var kept := made * f.down / f.up - Newest(f, s.made);
      kept >= 0 && FeedChunk(f, s, chunk) == (out, State(Slice(s.history + chunk, kept, kept + f.quality), made))
  {
    NewestGrows(f, s.made, made);
  }

  lemma NewestIs(f: Filter, m: nat)
    requires WellFormed(f)
    ensures m * f.down / f.up == Newest(f, m) && m * f.down >= 0
  {}

  /** The filter between two rates: their ratio in lowest terms, with taps of the caller's design. */
  function DesignFor(sourceRate: nat, targetRate: nat, quality: nat, taps: seq<real>): (f: Filter)
    requires sourceRate >= 1 && targetRate >= 1 && |taps| == quality * (targetRate / Gcd(sourceRate, targetRate))
    ensures WellFormed(f)
  {
    RatioPositive(sourceRate, targetRate);
    Filter(targetRate / Gcd(sourceRate, targetRate), sourceRate / Gcd(sourceRate, targetRate), quality, taps)
  }

  lemma RatioPositive(sourceRate: nat, targetRate: nat)
    requires sourceRate >= 1 && targetRate >= 1
    ensures targetRate / Gcd(sourceRate, targetRate) >= 1 && sourceRate / Gcd(sourceRate, targetRate) >= 1
  {
    var x, y := GcdDivides(sourceRate, targetRate);
    DivModExact(sourceRate, x, 0, Gcd(sourceRate, targetRate));
    DivModExact(targetRate, y, 0, Gcd(sourceRate, targetRate));
  }

  /** The ratio is one to one for equal rates, and for no others. */
  lemma EqualRates(sourceRate: nat, targetRate: nat)
    requires sourceRate >= 1 && targetRate >= 1
    ensures var g := Gcd(sourceRate, targetRate); (targetRate / g == 1 && sourceRate / g == 1) <==> sourceRate == targetRate
  {
    var g := Gcd(sourceRate, targetRate);
    var x, y := GcdDivides(sourceRate, targetRate);
    DivModExact(sourceRate, x, 0, g);
    DivModExact(targetRate, y, 0, g);
    if sourceRate == targetRate {
      assert sourceRate % sourceRate == 0;
      assert Gcd(sourceRate, sourceRate) == Gcd(sourceRate, 0) == sourceRate;
    }
  }

  class Converter {
    const sourceRate: nat
    const targetRate: nat
    const up: nat
    const down: nat
    const quality: nat
    const taps: seq<real>
    var history: seq<real>
    var made: nat

    ghost predicate Valid()
    {
      && sourceRate >= 1 && targetRate >= 1 && |taps| == quality * (targetRate / Gcd(sourceRate, targetRate))
      && WellFormed(Design()) && Design() == DesignFor(sourceRate, targetRate, quality, taps)
    }

    function Design(): Filter { Filter(up, down, quality, taps) }

    function Status(): State reads this { State(history, made) }

    /** Rates in lowest terms; the filter design itself is the caller's. */
    constructor (sourceRate: nat, targetRate: nat, quality: nat, taps: seq<real>)
      requires sourceRate >= 1 && targetRate >= 1 && |taps| == quality * (targetRate / Gcd(sourceRate, targetRate))
      ensures Valid() && Status() == Fresh(Design())
      ensures up * sourceRate == down * targetRate
      ensures this.sourceRate == sourceRate && this.targetRate == targetRate && this.quality == quality && this.taps == taps
    {
      var shared := Gcd(sourceRate, targetRate);
      ghost var x, y := GcdDivides(sourceRate, targetRate);
      DivModExact(sourceRate, x, 0, shared);
      DivModExact(targetRate, y, 0, shared);
      this.sourceRate, this.targetRate, this.quality, this.taps := sourceRate, targetRate, quality, taps;
      up, down := targetRate / shared, sourceRate / shared;
      history, made := Zeros(quality), 0;
      new;
      assert y * (x * shared) == x * (y * shared);
      assert x >= 1 && y >= 1;
    }

    predicate Passthrough() { up == 1 && down == 1 }

    /** The part of the stream that can be finished with what has arrived. */
    method Feed(data: seq<real>) returns (out: seq<real>)
      requires Valid()
      modifies this
      ensures sourceRate == targetRate ==> out == data && Status() == old(Status())
      ensures sourceRate != targetRate ==> (out, Status()) == FeedChunk(Design(), old(Status()), data)
    {
      EqualRates(sourceRate, targetRate);
      if Passthrough() { return data; }
      hide Emitted, Weighed, Slice, Underway, Newest, FeedChunk, WellFormed;
      var f := Design();
      var samples := history + data;
      var last := |samples| - 1;
      var base := made * down / up;
      ghost var start := made;
      NewestIs(f, made);
      UnderwayStart(f, samples, made);
      out := [];
      while true
        invariant Underway(f, samples, base, start, out, made) && history == old(history)
        decreases (|samples| + base) * up - made * down
      {
        var position := made * down;
        var newest := position / up - base + quality;
        NewestIs(f, made);
        if newest > last { break; }
        EmitTerminates(f, |samples|, base, made);
        UnderwayStep(f, samples, base, start, out, made);
        out := out + [Weighed(f, samples, position % up, newest, quality)];
        made := made + 1;
      }
      UnderwayEnd(f, samples, base, start, out, made);
      FeedIs(f, old(Status()), data, out, made);
      var kept := made * down / up - base;
      history := Slice(samples, kept, kept + quality);
    }

    /** Whatever the filter still holds: the tail is run out with silence. */
    method Flush() returns (out: seq<real>)
      requires Valid()
      modifies this
      ensures sourceRate == targetRate ==> out == [] && Status() == old(Status())
      ensures sourceRate != targetRate ==> (out, Status()) == FeedChunk(Design(), old(Status()), Zeros(quality))
    {
      EqualRates(sourceRate, targetRate);
      if Passthrough() { return []; }
      out := Feed(Zeros(quality));
    }
  }

  /** Rates that are not positive are refused. */
  method Create(sourceRate: int, targetRate: int, quality: nat, taps: seq<real>) returns (c: Option<Converter>)
    requires sourceRate >= 1 && targetRate >= 1 ==> |taps| == quality * (targetRate / Gcd(sourceRate, targetRate))
    ensures c.Some? <==> sourceRate > 0 && targetRate > 0
    ensures c.Some? ==> fresh(c.value) && c.value.Valid() && c.value.sourceRate == sourceRate && c.value.targetRate == targetRate
  {
    if sourceRate <= 0 || targetRate <= 0 { return None; }
    var made := new Converter(sourceRate, targetRate, quality, taps);
    c := Some(made);
  }

  /**
   * A new converter, fed any chunks: the outputs together are the stream itself between equal rates, and otherwise those
   * of the stream function, which are the textbook's when the filter fits.
   */
  method Convert(sourceRate: nat, targetRate: nat, quality: nat, taps: seq<real>, chunks: seq<seq<real>>) returns (out: seq<real>)
    requires sourceRate >= 1 && targetRate >= 1 && |taps| == quality * (targetRate / Gcd(sourceRate, targetRate))
    ensures sourceRate == targetRate ==> out == Joined(chunks)
    ensures var f := DesignFor(sourceRate, targetRate, quality, taps);
      sourceRate != targetRate ==> out == FeedAll(f, Fresh(f), chunks).0 && (Fits(f) ==> out == Textbook(f, Joined(chunks)))
  {
    hide FeedChunk, Textbook, Fits, Fresh, DesignFor;
    var c := new Converter(sourceRate, targetRate, quality, taps);
    ghost var f := c.Design();
    out := [];
    assert chunks[0..] == chunks;
    for i := 0 to |chunks|
      invariant c.Valid() && c.sourceRate == sourceRate && c.targetRate == targetRate && c.Design() == f
      invariant sourceRate == targetRate ==> out + Joined(chunks[i..]) == Joined(chunks)
      invariant sourceRate != targetRate ==> out + FeedAll(f, c.Status(), chunks[i..]).0 == FeedAll(f, Fresh(f), chunks).0
    {
      assert chunks[i..][0] == chunks[i] && chunks[i..][1..] == chunks[i + 1..];
      var more := c.Feed(chunks[i]);
      if sourceRate == targetRate {
        assert out + (more + Joined(chunks[i + 1..])) == (out + more) + Joined(chunks[i + 1..]);
      } else {
        assert out + (more + FeedAll(f, c.Status(), chunks[i + 1..]).0) == (out + more) + FeedAll(f, c.Status(), chunks[i + 1..]).0;
      }
      out := out + more;
    }
    assert chunks[|chunks|..] == [];
    assert out + [] == out;
    if sourceRate != targetRate && Fits(f) { FitsIsTextbook(f, chunks); }
  }
}
