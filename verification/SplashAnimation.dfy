// The splash window's integer animation: spinner angle and handoff fade. All
// products and sums are taken modulo 2^64, as the sources compute them.
module SplashAnimation {

  const U64 := 0x1_0000_0000_0000_0000
  const DEGREES_PER_SECOND := 240
  const FRAME_INTERVAL := 16
  const FADE_DURATION := 220

  function Mul(a: nat, b: nat): (p: nat)
    ensures p < U64 && (a * b < U64 ==> p == a * b)
  {
    (a * b) % U64
  }

  function Add(a: nat, b: nat): (s: nat)
    ensures s < U64 && (a + b < U64 ==> s == a + b)
  {
    (a + b) % U64
  }

  // A count of milliseconds as std::chrono stores it.
  predicate IsCount(elapsed: int) {
    -0x8000_0000_0000_0000 <= elapsed < 0x8000_0000_0000_0000
  }

  // ------------------------------------------------------------------- spinner

  datatype SpinnerFrame = SpinnerFrame(ordinal: nat, startDegrees: int)

  function SpinnerFrameAt(elapsed: int): SpinnerFrame {
    if elapsed <= 0 then SpinnerFrame(0, 0)
    else
      var wholeSeconds := elapsed / 1000;
      var remaining := elapsed % 1000;
      var accumulated := Add(Mul(wholeSeconds % 360, DEGREES_PER_SECOND), Mul(remaining, DEGREES_PER_SECOND) / 1000);
      var offset := accumulated % 360;
      SpinnerFrame(elapsed / FRAME_INTERVAL, if offset == 0 then 0 else 360 - offset)
  }

  // The angle after elapsed milliseconds without any reduction: clockwise, at
  // 240 degrees a second, in whole degrees.
  function Angle(elapsed: nat): int {
    (-(DEGREES_PER_SECOND * elapsed / 1000)) % 360
  }

  lemma WholeDegrees(seconds: nat, remaining: nat)
    requires remaining < 1000
    ensures DEGREES_PER_SECOND * (1000 * seconds + remaining) / 1000
         == DEGREES_PER_SECOND * seconds + DEGREES_PER_SECOND * remaining / 1000
  {
  }

  lemma SameResidue(a: int, b: int, k: int)
    requires a == b + 360 * k
    ensures a % 360 == b % 360
  {
  }

  // 360 seconds are a whole number of turns.
  lemma ReducedSeconds(seconds: nat, rest: nat)
    ensures (seconds % 360 * DEGREES_PER_SECOND + rest) % 360 == (DEGREES_PER_SECOND * seconds + rest) % 360
  {
    SameResidue(DEGREES_PER_SECOND * seconds + rest, seconds % 360 * DEGREES_PER_SECOND + rest,
                DEGREES_PER_SECOND * (seconds / 360));
  }

  lemma Negated(total: int)
    ensures (-total) % 360 == if total % 360 == 0 then 0 else 360 - total % 360
  {
    var rest := if total % 360 == 0 then 0 else 360 - total % 360;
    SameResidue(-total, rest, -(total / 360) - (if total % 360 == 0 then 0 else 1));
  }

  // The reduced form never wraps and is the plain formula.
  lemma SpinnerIsExact(elapsed: int)
    requires IsCount(elapsed)
    ensures SpinnerFrameAt(elapsed).startDegrees == if elapsed <= 0 then 0 else Angle(elapsed)
    ensures 0 <= SpinnerFrameAt(elapsed).startDegrees < 360
    ensures SpinnerFrameAt(elapsed).ordinal == if elapsed <= 0 then 0 else elapsed / 16
  {
    if elapsed > 0 {
      var seconds, remaining := elapsed / 1000, elapsed % 1000;
      WholeDegrees(seconds, remaining);
      ReducedSeconds(seconds, DEGREES_PER_SECOND * remaining / 1000);
      Negated(DEGREES_PER_SECOND * elapsed / 1000);
    }
  }

  lemma SpinnerPeriod(elapsed: int)
    requires 0 <= elapsed && IsCount(elapsed + 1500)
    ensures SpinnerFrameAt(elapsed + 1500).startDegrees == SpinnerFrameAt(elapsed).startDegrees
  {
    SpinnerIsExact(elapsed);
    SpinnerIsExact(elapsed + 1500);
    assert DEGREES_PER_SECOND * (elapsed + 1500) / 1000 == DEGREES_PER_SECOND * elapsed / 1000 + 360;
    SameResidue(-(DEGREES_PER_SECOND * elapsed / 1000), -(DEGREES_PER_SECOND * (elapsed + 1500) / 1000), 1);
  }

  // No shorter time is a period.
  lemma SpinnerHasNoShorterPeriod(period: nat)
    requires 0 < period < 1500
    ensures exists elapsed: nat :: elapsed <= 1500
              && SpinnerFrameAt(elapsed + period).startDegrees != SpinnerFrameAt(elapsed).startDegrees
  {
    var elapsed := if period < 5 then 5 - period else 0;
    SpinnerIsExact(elapsed);
    SpinnerIsExact(elapsed + period);
    FullTurn(elapsed + period);
    assert DEGREES_PER_SECOND * elapsed / 1000 == 0;
  }

  lemma FullTurn(period: nat)
    requires 5 <= period < 1500
    ensures Angle(period) != 0
  {
    assert 1 <= DEGREES_PER_SECOND * period / 1000 < 360;
    Negated(DEGREES_PER_SECOND * period / 1000);
  }

  // ---------------------------------------------------------------------- fade

  datatype FadeFrame = FadeFrame(opacity: int, complete: bool)

  function FadeFrameAt(elapsed: int): FadeFrame {
    if elapsed <= 0 then FadeFrame(255, false)
    else if elapsed >= FADE_DURATION then FadeFrame(0, true)
    else
      var remaining := FADE_DURATION - elapsed;
      var denominator := Mul(Mul(FADE_DURATION, FADE_DURATION), FADE_DURATION);
      var numerator := Mul(Mul(Mul(255, remaining), remaining), remaining);
      FadeFrame((Add(numerator, denominator / 2) / denominator) % 256, false)
  }

  const CUBE := 220 * 220 * 220

  lemma CubeGrows(a: nat, b: nat)
    requires a <= b
    ensures a * a * a <= b * b * b
  {
    assert a * a <= b * b;
    assert a * a * a <= b * b * a <= b * b * b;
  }

  // Twice the distance of the opacity from 255 (1 - t / 220)^3, in units of
  // 1 / 220^3, is at most one unit of opacity.
  lemma FadeIsRounded(t: nat)
    requires t <= FADE_DURATION
    ensures var exact := 255 * ((FADE_DURATION - t) * (FADE_DURATION - t) * (FADE_DURATION - t));
            var shown := FadeFrameAt(t).opacity;
            0 <= shown <= 255 && -CUBE <= 2 * (shown * CUBE - exact) <= CUBE
  {
    var r := FADE_DURATION - t;
    if 0 < t < FADE_DURATION {
      FadeNumerator(t);
    }
  }

  lemma FadeNumerator(t: nat)
    requires 0 < t < FADE_DURATION
    ensures var r := FADE_DURATION - t;
            && 0 <= 255 * (r * r * r) <= 255 * CUBE
            && FadeFrameAt(t).opacity == (255 * (r * r * r) + CUBE / 2) / CUBE
            && 0 <= FadeFrameAt(t).opacity <= 255
  {
    var r := FADE_DURATION - t;
    CubeGrows(r, FADE_DURATION);
    Products(r);
  }

  lemma Associate(k: nat, x: nat, y: nat)
    ensures (k * x) * y == k * (x * y)
  {
  }

  lemma SquareGrows(a: nat, b: nat)
    requires a <= b
    ensures a * a <= b * b
  {
  }

  lemma Products(r: nat)
    requires r <= FADE_DURATION
    ensures Mul(Mul(Mul(255, r), r), r) == 255 * (r * r * r)
  {
    Associate(255, r, r);
    Associate(255, r * r, r);
    SquareGrows(r, FADE_DURATION);
    CubeGrows(r, FADE_DURATION);
    assert Mul(255, r) == 255 * r;
    assert Mul(255 * r, r) == 255 * (r * r);
  }

  lemma FadeNeverBrightens(t: int, u: int)
    requires t <= u
    ensures FadeFrameAt(u).opacity <= FadeFrameAt(t).opacity
    ensures FadeFrameAt(t).complete ==> FadeFrameAt(u).complete
  {
    if 0 < u < FADE_DURATION {
      FadeNumerator(u);
    }
    if 0 < t < FADE_DURATION {
      FadeNumerator(t);
      if u < FADE_DURATION {
        CubeGrows(FADE_DURATION - u, FADE_DURATION - t);
      }
    }
  }

  lemma FadeCompletesExactly(t: int)
    ensures FadeFrameAt(t).complete <==> t >= FADE_DURATION
    ensures FadeFrameAt(t).complete ==> FadeFrameAt(t).opacity == 0
  {
  }
}
