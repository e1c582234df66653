/**
 * Helpers of the watch loop: how long to watch a video, where its duration
 * comes from, and the touch gestures (swipe, swipe down, tap) as the
 * sequences of touch events they dispatch to the tab.
 */
module Utils {
  import opened Wrappers
  import opened Values
  import opened Numbers
  import opened Browser

  /** The watch time used when a video has nothing left to play. */
  const DefaultWatchTime: real := 5.0

  /**
   * `get_video_current_time`, from what the page script evaluated to: the
   * playback position, or 0.0 when the evaluation gave nothing back.
   */
  function VideoCurrentTime(evaluated: Option<real>): (r: real)
    ensures evaluated.None? ==> r == 0.0
    ensures evaluated.Some? ==> r == evaluated.value
  {
    evaluated.GetOr(0.0)
  }

  /**
   * How long to watch a video: what is left of it, capped by the remaining
   * session time; when nothing is left (or the duration is unknown, i.e.
   * 0.0), the default instead, even if that exceeds the remaining time.
   */
  function CalculateTimeToWatch(duration: real, currentTime: real, remainingTime: real, default: real): (r: real)
    ensures duration - currentTime > 0.0 ==> r == Min(duration - currentTime, remainingTime)
    ensures duration - currentTime > 0.0 ==> r <= remainingTime && r <= duration - currentTime
    ensures duration <= currentTime ==> r == default
    ensures remainingTime > 0.0 && default > 0.0 ==> r > 0.0
  {
    var timeToWatch := Max(0.0, duration - currentTime);
    if timeToWatch > 0.0 then Min(timeToWatch, remainingTime) else default
  }

  /**
   * `float(v)`: numbers as they are, booleans as 1.0 and 0.0, strings when
   * they hold a decimal number; `None` where Python raises TypeError or
   * ValueError.
   */
  function FloatOf(v: Value): (r: Option<real>)
    ensures v.Num? ==> r == Some(v.n)
    ensures v.Null? || v.Array? || v.Object? ==> r == None
    ensures v.Bool? ==> r == Some(if v.b then 1.0 else 0.0)
    ensures v.Str? ==> r == ParseFloat(v.s) && (r.Some? <==> DecimalForm(v.s))
  {
    match v
    case Num(n) => Some(n)
    case Bool(b) => Some(if b then 1.0 else 0.0)
    case Str(s) => ParseFloat(s)
    case _ => None
  }

  /** `video.get('video', {})`, for a video that is a dict. */
  function Container(video: Value): Value
    requires video.Object?
  {
    GetOr(video.fields, "video", Object([]))
  }

  /**
   * The duration of a video, `video['video']['duration']` as a float.
   * A missing "video" or "duration" entry, or one `float` cannot convert,
   * gives 0.0. A video or "video" entry that is not a dict has no `.get`:
   * that AttributeError is not caught and reaches the caller.
   */
  function GetVideoDuration(video: Value): (r: Result<real, Exception>)
    ensures !video.Object? ==> r == Err(AttributeError)
    ensures video.Object? && !Container(video).Object? ==> r == Err(AttributeError)
    ensures video.Object? && !HasKey(video.fields, "video") ==> r == Ok(0.0)
    ensures video.Object? && Container(video).Object? && !HasKey(Container(video).fields, "duration") ==> r == Ok(0.0)
    ensures video.Object? && Container(video).Object? && HasKey(Container(video).fields, "duration") ==>
      var entry := Get(Container(video).fields, "duration").value;
      r == Ok(if FloatOf(entry).Some? then FloatOf(entry).value else 0.0)
  {
    match video
    case Object(fields) =>
      (match GetOr(fields, "video", Object([]))
       case Object(container) =>
         var duration := GetOr(container, "duration", Num(0.0));
         Ok(FloatOf(duration).GetOr(0.0))
       case _ => Err(AttributeError))
    case _ => Err(AttributeError)
  }

  predicate IsDirection(direction: string) {
    direction == "up" || direction == "down" || direction == "left" || direction == "right"
  }

  /** The displacement of one swipe step: the swipe size split into `steps` equal parts. */
  function Delta(direction: string, size: real, steps: int): (real, real)
    requires steps != 0 && IsDirection(direction)
  {
    if direction == "up" then (0.0, -size / steps as real)
    else if direction == "down" then (0.0, size / steps as real)
    else if direction == "left" then (-size / steps as real, 0.0)
    else (size / steps as real, 0.0)
  }

  /** A coordinate after k steps of d from c, added up one step at a time as the swipe loop does. */
  function Travel(c: real, d: real, k: nat): real {
    if k == 0 then c else Travel(c, d, k - 1) + d
  }

  /** k steps of d add up to k * d. */
  lemma {:induction false} TravelIsLinear(c: real, d: real, k: nat)
    ensures Travel(c, d, k) == c + k as real * d
  {
    if k > 0 {
      TravelIsLinear(c, d, k - 1);
      assert (k - 1) as real * d + d == k as real * d;
    }
  }

  /** The n touch moves of a swipe from (x, y): the i-th one is i steps of (dx, dy) away. */
  function Moves(x: real, y: real, dx: real, dy: real, n: nat): (r: seq<TouchEvent>)
    ensures |r| == n
    ensures forall i :: 0 <= i < n ==> r[i] == TouchEvent(TouchMove, Travel(x, dx, i + 1), Travel(y, dy, i + 1))
  {
    if n == 0 then []
    else Moves(x, y, dx, dy, n - 1) + [TouchEvent(TouchMove, Travel(x, dx, n), Travel(y, dy, n))]
  }

  /**
   * The touch events `swipe` dispatches: a touch start at (x, y), one move
   * per step, and a touch end where the last move was. Zero steps divide
   * by zero before anything is sent; an unknown direction raises
   * ValueError, also before anything is sent.
   */
  function SwipeTrace(x: real, y: real, size: real, direction: string, steps: int): (r: Result<seq<TouchEvent>, Exception>)
    ensures steps == 0 ==> r == Err(ZeroDivisionError)
    ensures steps != 0 && !IsDirection(direction) ==> r == Err(ValueError)
    ensures steps != 0 && IsDirection(direction) ==> r.Ok?
    ensures r.Ok? ==>
      var n := if steps > 0 then steps else 0;
      |r.value| == n + 2 && r.value[0] == TouchEvent(TouchStart, x, y) &&
      (forall i :: 1 <= i <= n ==> r.value[i].kind == TouchMove) &&
      r.value[n + 1].kind == TouchEnd &&
      (n > 0 ==> r.value[n + 1].x == r.value[n].x && r.value[n + 1].y == r.value[n].y) &&
      (n == 0 ==> r.value[1] == TouchEvent(TouchEnd, x, y))
  {
    if steps == 0 then Err(ZeroDivisionError)
    else if !IsDirection(direction) then Err(ValueError)
    else
      var (dx, dy) := Delta(direction, size, steps);
      var n: nat := if steps > 0 then steps else 0;
      Ok([TouchEvent(TouchStart, x, y)] + Moves(x, y, dx, dy, n)
         + [TouchEvent(TouchEnd, Travel(x, dx, n), Travel(y, dy, n))])
  }

  /** Where a swipe of `size` in `direction` ends, seen from (x, y). */
  function SwipeEnd(x: real, y: real, size: real, direction: string): (real, real) {
    if direction == "up" then (x, y - size)
    else if direction == "down" then (x, y + size)
    else if direction == "left" then (x - size, y)
    else (x + size, y)
  }

  /**
   * A swipe with at least one step has steps + 2 events and ends exactly
   * `size` away from its start, in its direction: an upward swipe from
   * (x, y) ends at (x, y - size).
   */
  lemma SwipeReachesEnd(x: real, y: real, size: real, direction: string, steps: int)
    requires steps > 0 && IsDirection(direction)
    ensures SwipeTrace(x, y, size, direction, steps).Ok?
    ensures var t := SwipeTrace(x, y, size, direction, steps).value;
      |t| == steps + 2 &&
      t[steps + 1] == TouchEvent(TouchEnd, SwipeEnd(x, y, size, direction).0, SwipeEnd(x, y, size, direction).1)
  {
    var n := steps as real;
    var (dx, dy) := Delta(direction, size, steps);
    TravelIsLinear(x, dx, steps);
    TravelIsLinear(y, dy, steps);
    assert n * (size / n) == size;
    assert n * (-size / n) == -size;
    assert n * 0.0 == 0.0;
  }

  /** The waits of a gesture that pauses `interval` after each of its `n` moves. */
  function Pauses(interval: real, n: nat): (r: seq<real>)
    ensures |r| == n && forall i :: 0 <= i < n ==> r[i] == interval
  {
    if n == 0 then [] else Pauses(interval, n - 1) + [interval]
  }

  /**
   * `swipe`: dispatches the events of `SwipeTrace`, sleeping duration/steps
   * milliseconds after each move; the interval is computed first, so zero
   * steps raise ZeroDivisionError before the direction is looked at.
   */
  method Swipe(tab: Tab, clock: Clock, x: real, y: real, size: real, direction: string, steps: int, duration: int)
    returns (raised: Option<Exception>)
    modifies tab`touches, clock
    ensures SwipeTrace(x, y, size, direction, steps).Err? ==>
      raised == Some(SwipeTrace(x, y, size, direction, steps).error) && tab.touches == old(tab.touches)
    ensures SwipeTrace(x, y, size, direction, steps).Ok? ==>
      raised == None && tab.touches == old(tab.touches) + SwipeTrace(x, y, size, direction, steps).value
    ensures steps == 0 || !IsDirection(direction) ==> clock.waits == old(clock.waits)
    ensures steps != 0 && IsDirection(direction) ==>
      clock.waits == old(clock.waits) + Pauses(duration as real / steps as real / 1000.0, if steps > 0 then steps else 0)
    ensures clock.now >= old(clock.now)
  {
    if steps == 0 {
      return Some(ZeroDivisionError);
    }
    var interval := duration as real / steps as real / 1000.0;
    var deltaX, deltaY := 0.0, 0.0;
    if direction == "up" {
      deltaY := -size / steps as real;
    } else if direction == "down" {
      deltaY := size / steps as real;
    } else if direction == "left" {
      deltaX := -size / steps as real;
    } else if direction == "right" {
      deltaX := size / steps as real;
    } else {
      return Some(ValueError);
    }
    assert (deltaX, deltaY) == Delta(direction, size, steps);
    tab.SendTouchEvent(TouchStart, x, y);
    var currentX, currentY := MoveSteps(tab, clock, x, y, deltaX, deltaY, steps, interval);
    tab.SendTouchEvent(TouchEnd, currentX, currentY);
    raised := None;
  }

  /**
   * The movement loop of `swipe`: `steps` touch moves of (deltaX, deltaY)
   * each from (x, y), with a pause of `interval` after each; returns where
   * the last move was.
   */
  method MoveSteps(tab: Tab, clock: Clock, x: real, y: real, deltaX: real, deltaY: real, steps: int, interval: real)
    returns (currentX: real, currentY: real)
    modifies tab`touches, clock
    ensures var n := if steps > 0 then steps else 0;
      currentX == Travel(x, deltaX, n) && currentY == Travel(y, deltaY, n) &&
      tab.touches == old(tab.touches) + Moves(x, y, deltaX, deltaY, n) &&
      clock.waits == old(clock.waits) + Pauses(interval, n)
    ensures clock.now >= old(clock.now)
  {
    currentX, currentY := x, y;
    var i := 0;
    while i < steps
      invariant 0 <= i && (steps >= 0 ==> i <= steps) && (steps < 0 ==> i == 0)
      invariant currentX == Travel(x, deltaX, i) && currentY == Travel(y, deltaY, i)
      invariant tab.touches == old(tab.touches) + Moves(x, y, deltaX, deltaY, i)
      invariant clock.waits == old(clock.waits) + Pauses(interval, i)
      invariant clock.now >= old(clock.now)
    {
      currentX := currentX + deltaX;
      currentY := currentY + deltaY;
      tab.SendTouchEvent(TouchMove, currentX, currentY);
      clock.Sleep(interval);
      i := i + 1;
    }
  }

  /** The n touch moves of a swipe down as written: the i-th one at y - i * deltaY. */
  function DownMoves(x: real, y: real, deltaY: real, n: nat): (r: seq<TouchEvent>)
    ensures |r| == n
  {
    if n == 0 then [] else DownMoves(x, y, deltaY, n - 1) + [TouchEvent(TouchMove, x, y - deltaY * n as real)]
  }

  /** One more move of a swipe down as written lands deltaY further from end_y. */
  lemma DownMovesGrow(x: real, y: real, deltaY: real, n: nat)
    requires n > 0
    ensures DownMoves(x, y, deltaY, n) == DownMoves(x, y, deltaY, n - 1) + [TouchEvent(TouchMove, x, y - deltaY * n as real)]
  {
  }

  /** The i-th move of a swipe down as written is at y - (i + 1) * deltaY, at the start's x. */
  lemma {:induction false} DownMoveAt(x: real, y: real, deltaY: real, n: nat, i: nat)
    requires i < n
    ensures DownMoves(x, y, deltaY, n)[i] == TouchEvent(TouchMove, x, y - deltaY * (i + 1) as real)
  {
    if i < n - 1 {
      DownMoveAt(x, y, deltaY, n - 1, i);
    }
  }

  /**
   * The touch events `swipe_down` dispatches, as written: the i-th move is
   * at start_y - i * (end_y - start_y) / steps, i.e. it moves AWAY from
   * end_y, and the touch end then jumps to (start_x, end_y).
   */
  function SwipeDownTrace(startX: real, startY: real, endY: real, steps: int): (r: Result<seq<TouchEvent>, Exception>)
    ensures steps == 0 <==> r == Err(ZeroDivisionError)
    ensures r.Ok? ==>
      var n := if steps > 0 then steps else 0;
      |r.value| == n + 2 && r.value[0] == TouchEvent(TouchStart, startX, startY) &&
      (forall i :: 1 <= i <= n ==> r.value[i].kind == TouchMove && r.value[i].x == startX) &&
      r.value[n + 1] == TouchEvent(TouchEnd, startX, endY)
  {
    if steps == 0 then Err(ZeroDivisionError)
    else
      var deltaY := (endY - startY) / steps as real;
      var n: nat := if steps > 0 then steps else 0;
      var moves := DownMoves(startX, startY, deltaY, n);
      assert forall i :: 0 <= i < n ==> moves[i].kind == TouchMove && moves[i].x == startX by {
        forall i | 0 <= i < n ensures moves[i].kind == TouchMove && moves[i].x == startX {
          DownMoveAt(startX, startY, deltaY, n, i);
        }
      }
      Ok([TouchEvent(TouchStart, startX, startY)] + moves
         + [TouchEvent(TouchEnd, startX, endY)])
  }

  /**
   * As written, the last move of a swipe down lands at 2 * start_y - end_y,
   * mirrored through the start, so the gesture's touch end is not where its
   * last move was whenever end_y differs from start_y.
   */
  lemma SwipeDownOvershoots(startX: real, startY: real, endY: real, steps: int)
    requires steps > 0 && endY != startY
    ensures SwipeDownTrace(startX, startY, endY, steps).Ok?
    ensures var t := SwipeDownTrace(startX, startY, endY, steps).value;
      t[steps] == TouchEvent(TouchMove, startX, 2.0 * startY - endY) && t[steps].y != t[steps + 1].y
  {
    var n := steps as real;
    assert (endY - startY) / n * n == endY - startY;
  }

  /** The swipe down the code evidently intends: each move a step closer to end_y. */
  function SwipeDownTraceIntended(startX: real, startY: real, endY: real, steps: int): (r: Result<seq<TouchEvent>, Exception>)
    ensures steps == 0 <==> r == Err(ZeroDivisionError)
  {
    if steps == 0 then Err(ZeroDivisionError)
    else
      var deltaY := (endY - startY) / steps as real;
      var n: nat := if steps > 0 then steps else 0;
      Ok([TouchEvent(TouchStart, startX, startY)] + DownMoves(startX, startY, -deltaY, n)
         + [TouchEvent(TouchEnd, startX, endY)])
  }

  /** The k-th of n equal steps from a to b lies between a and b; the n-th is b. */
  lemma StepBetween(a: real, b: real, n: nat, k: nat)
    requires 0 < k <= n
    ensures var p := a + (b - a) / n as real * k as real;
      (a <= b ==> a <= p <= b) && (b <= a ==> b <= p <= a) && (k == n ==> p == b)
  {
    var distance := b - a;
    var fraction := k as real / n as real;
    assert (b - a) / n as real * k as real == distance * fraction;
    assert fraction * n as real == k as real;
    assert 0.0 < fraction <= 1.0;
    assert k == n ==> fraction == 1.0;
    assert distance * fraction == distance - distance * (1.0 - fraction);
    if distance >= 0.0 {
      assert distance * fraction >= 0.0 && distance * (1.0 - fraction) >= 0.0;
    } else {
      assert distance * fraction <= 0.0 && distance * (1.0 - fraction) <= 0.0;
    }
  }

  /**
   * In the intended swipe down every move lies between start_y and end_y,
   * and the last move is exactly where the touch end is.
   */
  lemma SwipeDownIntendedIsContinuous(startX: real, startY: real, endY: real, steps: int)
    requires steps > 0
    ensures SwipeDownTraceIntended(startX, startY, endY, steps).Ok?
    ensures var t := SwipeDownTraceIntended(startX, startY, endY, steps).value;
      |t| == steps + 2 && t[steps] == TouchEvent(TouchMove, startX, endY) && t[steps + 1] == TouchEvent(TouchEnd, startX, endY) &&
      forall i :: 1 <= i <= steps ==>
        t[i].kind == TouchMove && t[i].x == startX &&
        (startY <= endY ==> startY <= t[i].y <= endY) && (endY <= startY ==> endY <= t[i].y <= startY)
  {
    var deltaY := (endY - startY) / steps as real;
    var t := SwipeDownTraceIntended(startX, startY, endY, steps).value;
    forall i | 1 <= i <= steps
      ensures t[i] == TouchEvent(TouchMove, startX, startY - -deltaY * i as real)
      ensures (startY <= endY ==> startY <= t[i].y <= endY) && (endY <= startY ==> endY <= t[i].y <= startY)
    {
      DownMoveAt(startX, startY, -deltaY, steps, i - 1);
      assert startY - -deltaY * i as real == startY + deltaY * i as real;
      StepBetween(startY, endY, steps, i);
    }
    StepBetween(startY, endY, steps, steps);
    assert startY - -deltaY * steps as real == startY + deltaY * steps as real;
  }

  /** `swipe_down`, as written: dispatches the events of `SwipeDownTrace`. */
  method SwipeDown(tab: Tab, clock: Clock, startX: real, startY: real, endY: real, steps: int, duration: int)
    returns (raised: Option<Exception>)
    modifies tab`touches, clock
    ensures steps == 0 ==> raised == Some(ZeroDivisionError) && tab.touches == old(tab.touches)
    ensures steps != 0 ==>
      raised == None && tab.touches == old(tab.touches) + SwipeDownTrace(startX, startY, endY, steps).value
    ensures steps == 0 ==> clock.waits == old(clock.waits)
    ensures steps != 0 ==>
      clock.waits == old(clock.waits) + Pauses(duration as real / steps as real / 1000.0, if steps > 0 then steps else 0)
    ensures clock.now >= old(clock.now)
  {
    if steps == 0 {
      return Some(ZeroDivisionError);
    }
    var interval := duration as real / steps as real / 1000.0;
    var deltaY := (endY - startY) / steps as real;
    ghost var before := tab.touches;
    tab.SendTouchEvent(TouchStart, startX, startY);
    var i := 1;
    while i < steps + 1
      invariant 1 <= i && (steps >= 0 ==> i <= steps + 1) && (steps < 0 ==> i == 1)
      invariant tab.touches == before + [TouchEvent(TouchStart, startX, startY)] + DownMoves(startX, startY, deltaY, i - 1)
      invariant clock.waits == old(clock.waits) + Pauses(interval, i - 1)
      invariant clock.now >= old(clock.now)
    {
      var currentY := startY - deltaY * i as real;
      DownMovesGrow(startX, startY, deltaY, i);
      tab.SendTouchEvent(TouchMove, startX, currentY);
      clock.Sleep(interval);
      i := i + 1;
    }
    tab.SendTouchEvent(TouchEnd, startX, endY);
    raised := None;
  }

  /** `tap_on_element`: a touch start and a touch end, both at (x, y). */
  method TapOnElement(tab: Tab, x: real, y: real)
    modifies tab`touches
    ensures tab.touches == old(tab.touches) + [TouchEvent(TouchStart, x, y), TouchEvent(TouchEnd, x, y)]
  {
    tab.SendTouchEvent(TouchStart, x, y);
    tab.SendTouchEvent(TouchEnd, x, y);
  }
}
