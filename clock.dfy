/** The frame clock of src/clock/Clock.ts. Timestamps are whole
    milliseconds (`int`), so `| 0` and `%` on them are exact; `speed`,
    the deltas and the throttle interval are exact `real`s. The host's
    `requestAnimationFrame`/`cancelAnimationFrame` appear only as calls in
    a ghost log, and the engine callback as the ghost list of the
    `deltaTime` values it was invoked with. */
module FrameClock {

  /** JavaScript's `ToInt32`: wrap an integer into the signed 32-bit range. */
  function ToInt32(n: int): (r: int)
    ensures -0x8000_0000 <= r < 0x8000_0000
    ensures (n - r) % 0x1_0000_0000 == 0
  {
    var m := n % 0x1_0000_0000;
    if m >= 0x8000_0000 then m - 0x1_0000_0000 else m
  }

  /** Integers already in range pass through `| 0` unchanged. */
  lemma {:induction false} ToInt32InRange(n: int)
    requires -0x8000_0000 <= n < 0x8000_0000
    ensures ToInt32(n) == n
  {
  }

  /** `ToInteger` on a real: truncation toward zero. */
  function Trunc(x: real): (r: int)
    ensures x >= 0.0 ==> r as real <= x < r as real + 1.0
    ensures x < 0.0 ==> r as real - 1.0 < x <= r as real
  {
    if x >= 0.0 then x.Floor else -((-x).Floor)
  }

  /** JavaScript's `%` on numbers with a positive divisor: the remainder
      takes the sign of the dividend. */
  function JsRem(d: real, m: real): (r: real)
    requires m > 0.0
    ensures d >= 0.0 ==> 0.0 <= r < m
    ensures d < 0.0 ==> -m < r <= 0.0
  {
    var k := Trunc(d / m) as real;
    QuotientSign(d, m);
    DivBounds(d, m, k);
    d - m * k
  }

  lemma {:induction false} QuotientSign(d: real, m: real)
    requires m > 0.0
    ensures d >= 0.0 <==> d / m >= 0.0
  {
  }

  /** `k` is the quotient truncated toward zero: the remainder is smaller
      than the divisor and has the sign of the dividend. */
  lemma {:induction false} DivBounds(d: real, m: real, k: real)
    requires m > 0.0
    requires d >= 0.0 ==> 0.0 <= d / m - k < 1.0
    requires d < 0.0 ==> -1.0 < d / m - k <= 0.0
    ensures d >= 0.0 ==> 0.0 <= d - m * k < m
    ensures d < 0.0 ==> -m < d - m * k <= 0.0
  {
    var x := d / m;
    assert m * x == d;
    if d >= 0.0 {
      ScaledFraction(m, x, k, d);
    } else {
      ScaledNegFraction(m, x, k, d);
    }
  }

  /** Scaling by a positive `m` keeps a fraction `x - k` in [0, 1) within
      [0, m). */
  lemma {:induction false} ScaledFraction(m: real, x: real, k: real, d: real)
    requires m > 0.0 && d == m * x && 0.0 <= x - k < 1.0
    ensures 0.0 <= d - m * k < m
  {
    var f := x - k;
    Distrib(m, x, k, f);
    MulFraction(m, f);
    Shift(m * x, m * k, m * f, d, m);
  }

  /** The same for a fraction in (-1, 0]. */
  lemma {:induction false} ScaledNegFraction(m: real, x: real, k: real, d: real)
    requires m > 0.0 && d == m * x && -1.0 < x - k <= 0.0
    ensures -m < d - m * k <= 0.0
  {
    var f := x - k;
    Distrib(m, x, k, f);
    MulNegFraction(m, f);
    Shift(m * x, m * k, m * f, d, m);
  }

  /** The linear step of `ScaledFraction`, over the products as plain
      values. */
  lemma {:induction false} Shift(mx: real, mk: real, mf: real, d: real, m: real)
    requires d == mx && mx - mk == mf
    ensures 0.0 <= mf < m ==> 0.0 <= d - mk < m
    ensures -m < mf <= 0.0 ==> -m < d - mk <= 0.0
  {
  }

  lemma {:induction false} Distrib(m: real, x: real, k: real, f: real)
    requires f == x - k
    ensures m * x - m * k == m * f
  {
  }

  lemma {:induction false} MulFraction(m: real, f: real)
    requires m > 0.0 && 0.0 <= f < 1.0
    ensures 0.0 <= m * f < m
  {
  }

  lemma {:induction false} MulNegFraction(m: real, f: real)
    requires m > 0.0 && -1.0 < f <= 0.0
    ensures -m < m * f <= 0.0
  {
    MulFraction(m, -f);
    assert m * -f == -(m * f);
  }

  /** `Math.round`: halves round up. */
  function Round(x: real): (r: int)
    ensures r as real - 0.5 <= x < r as real + 0.5
  {
    (x + 0.5).Floor
  }

  function Min(a: real, b: real): (r: real)
    ensures r <= a && r <= b && (r == a || r == b)
  {
    if a <= b then a else b
  }

  function Max(a: real, b: real): (r: real)
    ensures r >= a && r >= b && (r == a || r == b)
  {
    if a >= b then a else b
  }

  /** The `maxFPS` getter over `_minElapsedMS`: 0 when throttling is off. */
  function MaxFPSOf(minElapsedMS: real): (r: int)
    ensures minElapsedMS == 0.0 ==> r == 0
  {
    if minElapsedMS != 0.0 then Round(1000.0 / minElapsedMS) else 0
  }

  /** The `minFPS` getter over `_maxElapsedMS`. */
  function MinFPSOf(maxElapsedMS: real): real
    requires maxElapsedMS > 0.0
  {
    1000.0 / maxElapsedMS
  }

  /** The `maxFPS` setter's new `_minElapsedMS`: 0 turns throttling off;
      any other rate is raised to at least `minFPS` and inverted. */
  function MinElapsedFor(maxElapsedMS: real, fps: real): (r: real)
    requires maxElapsedMS > 0.0
    ensures fps == 0.0 <==> r == 0.0
    ensures r >= 0.0 && r <= maxElapsedMS
  {
    if fps == 0.0 then 0.0
    else
      var maxFPS := Max(MinFPSOf(maxElapsedMS), fps);
      assert maxFPS * maxElapsedMS >= 1000.0;
      1.0 / (maxFPS / 1000.0)
  }

  /** Setting a whole frame rate at or above `minFPS` reads back as that
      rate; setting 0 reads back as 0. */
  lemma {:induction false} MaxFPSRoundTrip(maxElapsedMS: real, fps: int)
    requires maxElapsedMS > 0.0
    requires fps == 0 || fps as real >= MinFPSOf(maxElapsedMS)
    ensures MaxFPSOf(MinElapsedFor(maxElapsedMS, fps as real)) == fps
  {
    if fps != 0 {
      var m := MinElapsedFor(maxElapsedMS, fps as real);
      assert Max(MinFPSOf(maxElapsedMS), fps as real) == fps as real;
      assert m == 1000.0 / fps as real;
      assert 1000.0 / m == fps as real;
      assert (fps as real + 0.5).Floor == fps;
    }
  }

  /** A call the clock makes to the host frame scheduler. */
  datatype HostCall = RequestFrame | CancelFrame

  class Clock {
    /** TARGET_FPMS, frames per millisecond. */
    const targetFPMS: real

    var deltaTime: real
    var deltaMS: real
    var elapsedMS: real
    var lastTime: int
    var speed: real
    var started: bool
    /** `_requestId !== null`: a host frame is pending. */
    var requested: bool
    var maxElapsedMS: real
    var minElapsedMS: real
    var lastFrame: real

    ghost var host: seq<HostCall>
    /** The `deltaTime` of every invocation of the engine callback. */
    ghost var ticks: seq<real>

    ghost predicate Valid()
      reads this
    {
      targetFPMS > 0.0 && maxElapsedMS > 0.0 && minElapsedMS >= 0.0
    }

    constructor(targetFPMS: real)
      requires targetFPMS > 0.0
      ensures this.targetFPMS == targetFPMS && Valid()
      ensures deltaTime == 1.0 && deltaMS == 1.0 / targetFPMS && elapsedMS == 1.0 / targetFPMS
      ensures lastTime == -1 && speed == 1.0 && !started && !requested
      ensures maxElapsedMS == 100.0 && minElapsedMS == 0.0 && lastFrame == -1.0
      ensures host == [] && ticks == []
    {
      this.targetFPMS := targetFPMS;
      deltaTime := 1.0;
      deltaMS := 1.0 / targetFPMS;
      elapsedMS := 1.0 / targetFPMS;
      lastTime := -1;
      speed := 1.0;
      started := false;
      requested := false;
      maxElapsedMS := 100.0;
      minElapsedMS := 0.0;
      lastFrame := -1.0;
      host := [];
      ticks := [];
    }

    /** `_requestIfNeeded`: with no frame pending, both time marks are reset
        to `now` and a frame is requested. */
    method RequestIfNeeded(now: int)
      modifies this`lastTime, this`lastFrame, this`requested, this`host
      ensures old(requested) ==> lastTime == old(lastTime) && lastFrame == old(lastFrame) && host == old(host)
      ensures !old(requested) ==> lastTime == now && lastFrame == now as real && host == old(host) + [RequestFrame]
      ensures requested
    {
      if !requested {
        lastTime := now;
        lastFrame := lastTime as real;
        requested := true;
        host := host + [RequestFrame];
      }
    }

    /** `_cancelIfNeeded`: a pending frame is cancelled. */
    method CancelIfNeeded()
      modifies this`requested, this`host
      ensures !requested
      ensures host == old(host) + (if old(requested) then [CancelFrame] else [])
    {
      if requested {
        host := host + [CancelFrame];
        requested := false;
      }
    }

    /** `start`: only a stopped clock changes; it then requests a frame. */
    method Start(now: int)
      modifies this`started, this`lastTime, this`lastFrame, this`requested, this`host
      ensures started
      ensures old(started) ==>
        (lastTime == old(lastTime) && lastFrame == old(lastFrame) && requested == old(requested) && host == old(host))
      ensures !old(started) && !old(requested) ==>
        lastTime == now && lastFrame == now as real && requested && host == old(host) + [RequestFrame]
      ensures !old(started) && old(requested) ==>
        lastTime == old(lastTime) && lastFrame == old(lastFrame) && requested && host == old(host)
    {
      if !started {
        started := true;
        RequestIfNeeded(now);
      }
    }

    /** `stop`: only a running clock changes; it then cancels its frame. */
    method Stop()
      modifies this`started, this`requested, this`host
      ensures !started
      ensures old(started) ==> !requested && host == old(host) + (if old(requested) then [CancelFrame] else [])
      ensures !old(started) ==> requested == old(requested) && host == old(host)
    {
      if started {
        started := false;
        CancelIfNeeded();
      }
    }

    /** `update(currentTime)`. A time at or before `lastTime` zeroes the
        deltas without calling back; a frame closer than `_minElapsedMS`
        to `_lastFrame` returns early after saving the raw elapsed time;
        any other frame calls back once with `deltaMS * TARGET_FPMS`. */
    method Update(currentTime: int)
      requires Valid()
      modifies this`deltaTime, this`deltaMS, this`elapsedMS, this`lastTime, this`lastFrame, this`ticks
      ensures Valid()
      ensures currentTime <= old(lastTime) ==>
        deltaTime == 0.0 && deltaMS == 0.0 && elapsedMS == 0.0
        && lastTime == currentTime && lastFrame == old(lastFrame) && ticks == old(ticks)
      ensures currentTime > old(lastTime) ==>
        elapsedMS == (currentTime - old(lastTime)) as real
      ensures currentTime > old(lastTime) && Throttled(currentTime, old(lastFrame)) ==>
        deltaTime == old(deltaTime) && deltaMS == old(deltaMS)
        && lastTime == old(lastTime) && lastFrame == old(lastFrame) && ticks == old(ticks)
      ensures currentTime > old(lastTime) && !Throttled(currentTime, old(lastFrame)) ==>
        deltaMS == Min((currentTime - old(lastTime)) as real, maxElapsedMS) * speed
        && deltaTime == deltaMS * targetFPMS
        && ticks == old(ticks) + [deltaTime]
        && lastTime == currentTime
        && (minElapsedMS == 0.0 ==> lastFrame == old(lastFrame))
        && (minElapsedMS != 0.0 ==> 0.0 <= currentTime as real - lastFrame < minElapsedMS)
        && (minElapsedMS != 0.0 ==>
              lastFrame == currentTime as real - JsRem(FrameDelta(currentTime, old(lastFrame)) as real, minElapsedMS))
    {
      if currentTime > lastTime {
        elapsedMS := (currentTime - lastTime) as real;
        var elapsed := elapsedMS;
        if elapsed > maxElapsedMS {
          elapsed := maxElapsedMS;
        }
        elapsed := elapsed * speed;
        if minElapsedMS != 0.0 {
          var delta := FrameDelta(currentTime, lastFrame);
          if (delta as real) < minElapsedMS {
            return;
          }
          lastFrame := currentTime as real - JsRem(delta as real, minElapsedMS);
        }
        deltaMS := elapsed;
        deltaTime := deltaMS * targetFPMS;
        ticks := ticks + [deltaTime];
      } else {
        deltaMS := 0.0;
        elapsedMS := 0.0;
        deltaTime := 0.0;
      }
      lastTime := currentTime;
    }

    /** The early return of `update`: throttling is on and fewer than
        `_minElapsedMS` whole milliseconds passed since `_lastFrame`. */
    ghost predicate Throttled(currentTime: int, lastFrame: real)
      reads this
    {
      minElapsedMS != 0.0 && (FrameDelta(currentTime, lastFrame) as real) < minElapsedMS
    }

    /** The `maxFPS` getter. */
    function MaxFPS(): (r: int)
      reads this
      ensures minElapsedMS == 0.0 ==> r == 0
    {
      MaxFPSOf(minElapsedMS)
    }

    /** The `maxFPS` setter. */
    method SetMaxFPS(fps: real)
      requires Valid()
      modifies this`minElapsedMS
      ensures Valid() && minElapsedMS == MinElapsedFor(maxElapsedMS, fps)
      ensures fps == 0.0 ==> minElapsedMS == 0.0 && MaxFPS() == 0
    {
      minElapsedMS := MinElapsedFor(maxElapsedMS, fps);
    }

    /** `_tick(time)`: the pending frame is consumed; a started clock
        updates and, still started, asks for the next frame. */
    method Tick(time: int)
      requires Valid()
      modifies this
      ensures Valid() && started == old(started) && requested == started
      ensures !old(started) ==> host == old(host) && ticks == old(ticks) && lastTime == old(lastTime)
      ensures old(started) ==> host == old(host) + [RequestFrame]
    {
      requested := false;
      if started {
        Update(time);
        if started && !requested {
          requested := true;
          host := host + [RequestFrame];
        }
      }
    }
  }

  /** `(currentTime - this._lastFrame) | 0`. */
  function FrameDelta(currentTime: int, lastFrame: real): (d: int)
    ensures -0x8000_0000 <= d < 0x8000_0000
  {
    ToInt32(Trunc(currentTime as real - lastFrame))
  }

  /** The throttled frame's new `_lastFrame` lies less than one interval
      behind the current time: the unused remainder carries over. */
  lemma {:induction false} ThrottleCarry(currentTime: int, lastFrame: real, minElapsedMS: real)
    requires minElapsedMS > 0.0 && (FrameDelta(currentTime, lastFrame) as real) >= minElapsedMS
    ensures var next := currentTime as real - JsRem(FrameDelta(currentTime, lastFrame) as real, minElapsedMS);
      0.0 <= currentTime as real - next < minElapsedMS
  {
  }

  /** Without wrap-around, the whole milliseconds since `_lastFrame` are
      the truncated difference. */
  lemma {:induction false} FrameDeltaExact(currentTime: int, lastFrame: real)
    requires 0.0 <= currentTime as real - lastFrame < 2147483648.0
    ensures FrameDelta(currentTime, lastFrame) == (currentTime as real - lastFrame).Floor
  {
  }
}
