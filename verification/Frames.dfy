/** 16-bit audio frames, and the overlap-add that blends two stretches of them. */
module Frames {
  import opened CArith

  const SHRT_MIN := -32768
  const SHRT_MAX := 32767

  type Short = x: int | SHRT_MIN <= x <= SHRT_MAX

  /** One value per channel. */
  type Frame = seq<Short>

  ghost predicate Framed(xs: seq<Frame>, channels: nat) {
    forall i :: 0 <= i < |xs| ==> |xs[i]| == channels
  }

  lemma FramedTogether(xs: seq<Frame>, ys: seq<Frame>, channels: nat)
    requires Framed(xs, channels) && Framed(ys, channels)
    ensures Framed(xs + ys, channels)
  {
  }

  function Silence(channels: nat): (f: Frame)
    ensures |f| == channels && forall c :: 0 <= c < channels ==> f[c] == 0
  {
    seq(channels, _ => 0)
  }

  /** The linear cross-fade of two values at step t of n. */
  function Blend(n: nat, t: nat, down: Short, up: Short): (v: Short)
    requires t < n
  {
    BlendInRange(n, t, down, up);
    TruncDiv(down * (n - t) + up * t, n)
  }

  /** The blended value never leaves the range of a short, and the products stay in 32 bits for up to 65536 steps. */
  lemma BlendInRange(n: nat, t: nat, down: Short, up: Short)
    requires t < n
    ensures SHRT_MIN * n <= down * (n - t) + up * t <= SHRT_MAX * n
    ensures SHRT_MIN <= TruncDiv(down * (n - t) + up * t, n) <= SHRT_MAX
    ensures n <= 0x1_0000 ==> IsInt32(down * (n - t)) && IsInt32(up * t) && IsInt32(down * (n - t) + up * t)
  {
    MulMono(SHRT_MIN, down, n - t);
    MulMono(down, SHRT_MAX, n - t);
    MulMono(SHRT_MIN, up, t);
    MulMono(up, SHRT_MAX, t);
    TruncDivBounds(down * (n - t) + up * t, n, SHRT_MIN, SHRT_MAX);
  }

  function BlendFrame(n: nat, t: nat, down: Frame, up: Frame): (f: Frame)
    requires t < n && |down| == |up|
    ensures |f| == |down|
  {
    seq(|down|, c requires 0 <= c < |down| => Blend(n, t, down[c], up[c]))
  }

  /** n frames that fade from `down` into `up`. */
  function CrossFade(n: nat, channels: nat, down: seq<Frame>, up: seq<Frame>): (out: seq<Frame>)
    requires n <= |down| && n <= |up|
    requires Framed(down, channels) && Framed(up, channels)
    ensures |out| == n && Framed(out, channels)
  {
    seq(n, t requires 0 <= t < n => BlendFrame(n, t, down[t], up[t]))
  }

  /** The overlap-add loop: channel by channel, one value at a time, into the output. */
  method OverlapAdd(n: nat, channels: nat, down: seq<Frame>, up: seq<Frame>) returns (out: seq<Frame>)
    requires n <= |down| && n <= |up|
    requires Framed(down, channels) && Framed(up, channels)
    ensures out == CrossFade(n, channels, down, up)
  {
    out := seq(n, _ => Silence(channels));
    for i := 0 to channels
      invariant |out| == n && Framed(out, channels)
      invariant forall t, c :: 0 <= t < n && 0 <= c < i ==> out[t][c] == Blend(n, t, down[t][c], up[t][c])
    {
      for t := 0 to n
        invariant |out| == n && Framed(out, channels)
        invariant forall s, c :: 0 <= s < n && 0 <= c < i ==> out[s][c] == Blend(n, s, down[s][c], up[s][c])
        invariant forall s :: 0 <= s < t ==> out[s][i] == Blend(n, s, down[s][i], up[s][i])
      {
        BlendInRange(n, t, down[t][i], up[t][i]);
        var value: Short := TruncDiv(down[t][i] * (n - t) + up[t][i] * t, n);
        var frame: Frame := out[t][i := value];
        out := out[t := frame];
      }
    }
    forall t | 0 <= t < n
      ensures out[t] == BlendFrame(n, t, down[t], up[t])
    {
    }
  }

  // ---- what a fade sounds like ----

  predicate Between(v: int, a: int, b: int) {
    a <= v <= b || b <= v <= a
  }

  /** A value at most `steps` of n steps away from one end, up to rounding. */
  predicate Near(v: int, end: int, other: int, steps: nat, n: nat) {
    Distance(v, end) * n < Distance(end, other) * steps + n
  }

  /** What a division leaves out is less than its divisor. */
  lemma RoundedIsNear(x: int, v: int, n: nat, end: int, other: int, steps: nat)
    requires n > 0 && Distance(v * n, x) < n && Distance(x, end * n) <= Distance(end, other) * steps
    ensures Near(v, end, other, steps, n)
  {
    DistanceScales(v, end, n);
  }

  lemma RoundedIsBetween(x: int, v: int, n: nat, low: int, high: int)
    requires n > 0 && Distance(v * n, x) < n && low * n <= x <= high * n
    ensures low <= v <= high
  {
    assert (low - 1) * n == low * n - n && (high + 1) * n == high * n + n;
    if v < low {
      MulMono(v, low - 1, n);
    } else if v > high {
      MulMono(high + 1, v, n);
    }
  }

  lemma MixedFrom(n: nat, t: nat, down: int, up: int)
    requires t <= n
    ensures var x := down * (n - t) + up * t;
      x - down * n == (up - down) * t && up * n - x == (up - down) * (n - t)
  {
  }

  lemma MixIsNear(n: nat, t: nat, down: int, up: int)
    requires t <= n
    ensures var x := down * (n - t) + up * t;
      Distance(x, down * n) <= Distance(down, up) * t && Distance(x, up * n) <= Distance(up, down) * (n - t)
    ensures var x := down * (n - t) + up * t;
      if down <= up then down * n <= x <= up * n else up * n <= x <= down * n
  {
    MixedFrom(n, t, down, up);
    var k: nat := n - t;
    if down <= up {
      MulMono(0, up - down, t);
      MulMono(0, up - down, k);
    } else {
      MulMono(0, down - up, t);
      MulMono(0, down - up, k);
      assert (down - up) * t == -((up - down) * t) && (down - up) * k == -((up - down) * k);
    }
  }

  lemma MixIsRounded(n: nat, t: nat, down: int, up: int, v: int) returns (x: int)
    requires t < n && v == TruncDiv(down * (n - t) + up * t, n)
    ensures Distance(v * n, x) < n && (t == 0 ==> x == down * n)
    ensures if down <= up then down * n <= x <= up * n else up * n <= x <= down * n
    ensures Distance(x, down * n) <= Distance(down, up) * t && Distance(x, up * n) <= Distance(up, down) * (n - t)
  {
    x := down * (n - t) + up * t;
    TruncDivIsNearest(x, n);
    MixIsNear(n, t, down, up);
    MixedFrom(n, t, down, up);
  }

  /** A rounded mix starts at its first value, stays between both, and moves from the one to the other step by step. */
  lemma MixFollows(n: nat, t: nat, down: int, up: int, v: int)
    requires t < n && v == TruncDiv(down * (n - t) + up * t, n)
    ensures (t == 0 ==> v == down) && Between(v, down, up)
    ensures Near(v, down, up, t, n) && Near(v, up, down, n - t, n)
  {
    var x := MixIsRounded(n, t, down, up, v);
    RoundedIsNear(x, v, n, down, up, t);
    RoundedIsNear(x, v, n, up, down, n - t);
    RoundedIsBetween(x, v, n, if down <= up then down else up, if down <= up then up else down);
    if t == 0 {
      RoundedIsBetween(x, v, n, down, down);
    }
  }

  lemma BlendFollows(n: nat, t: nat, down: Short, up: Short)
    requires t < n
    ensures t == 0 ==> Blend(n, t, down, up) == down
    ensures Between(Blend(n, t, down, up), down, up)
    ensures Near(Blend(n, t, down, up), down, up, t, n) && Near(Blend(n, t, down, up), up, down, n - t, n)
  {
    MixFollows(n, t, down, up, Blend(n, t, down, up));
  }

  /** Every channel of a fade, at every step. */
  lemma FadeFollows(n: nat, channels: nat, down: seq<Frame>, up: seq<Frame>, t: nat)
    requires t < n && n <= |down| && n <= |up| && Framed(down, channels) && Framed(up, channels)
    ensures var out := CrossFade(n, channels, down, up);
      && (t == 0 ==> out[0] == down[0])
      && forall c :: 0 <= c < channels ==>
           && Between(out[t][c], down[t][c], up[t][c])
           && Near(out[t][c], down[t][c], up[t][c], t, n) && Near(out[t][c], up[t][c], down[t][c], n - t, n)
  {
    forall c | 0 <= c < channels
      ensures t == 0 ==> Blend(n, t, down[t][c], up[t][c]) == down[t][c]
      ensures Between(Blend(n, t, down[t][c], up[t][c]), down[t][c], up[t][c])
      ensures Near(Blend(n, t, down[t][c], up[t][c]), down[t][c], up[t][c], t, n)
      ensures Near(Blend(n, t, down[t][c], up[t][c]), up[t][c], down[t][c], n - t, n)
    {
      BlendFollows(n, t, down[t][c], up[t][c]);
    }
    assert CrossFade(n, channels, down, up)[t] == BlendFrame(n, t, down[t], up[t]);
  }

  /** In every channel between two frames, and at most one of n steps away from the first. */
  ghost predicate EndsNear(last: Frame, next: Frame, other: Frame, channels: nat, n: nat) {
    && |last| == channels && |next| == channels && |other| == channels
    && forall i :: 0 <= i < channels ==> Between(last[i], next[i], other[i]) && Near(last[i], next[i], other[i], 1, n)
  }

  lemma FadeEnds(n: nat, channels: nat, down: seq<Frame>, up: seq<Frame>)
    requires 0 < n <= |down| && n <= |up| && Framed(down, channels) && Framed(up, channels)
    ensures EndsNear(CrossFade(n, channels, down, up)[n - 1], up[n - 1], down[n - 1], channels, n)
  {
    FadeFollows(n, channels, down, up, n - 1);
  }
}
