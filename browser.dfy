/**
 * The part of the outside world the core talks to: the browser tab, seen
 * through what the core sends it, and the wall clock, seen through
 * `time.time()` and the waits that let it advance.
 */
module Browser {

  datatype TouchKind = TouchStart | TouchMove | TouchEnd

  /** One dispatched touch event with its single touch point, in CSS pixels. */
  datatype TouchEvent = TouchEvent(kind: TouchKind, x: real, y: real)

  /** A page-level request the core makes of the tab. */
  datatype Navigation = Load(url: string) | Reload

  /** A browser tab, as the list of touch events and page requests it has received. */
  class Tab {
    var touches: seq<TouchEvent>
    var navigations: seq<Navigation>

    constructor ()
      ensures touches == [] && navigations == []
    {
      touches := [];
      navigations := [];
    }

    /** Dispatches one touch event with one touch point at (x, y). */
    method SendTouchEvent(kind: TouchKind, x: real, y: real)
      modifies this`touches
      ensures touches == old(touches) + [TouchEvent(kind, x, y)]
    {
      touches := touches + [TouchEvent(kind, x, y)];
    }

    /** Asks the tab to load `url` (`tab.get`) or to reload the current page. */
    method Request(n: Navigation)
      modifies this`navigations
      ensures navigations == old(navigations) + [n]
    {
      navigations := navigations + [n];
    }
  }

  /**
   * The wall clock. Callers only know that it never runs backwards and that
   * a wait of d seconds lets at least d seconds pass. `waits` records the
   * length of every wait asked for, in order.
   */
  class Clock {
    var now: real
    ghost var waits: seq<real>

    constructor (start: real)
      ensures now == start && waits == []
    {
      now := start;
      waits := [];
    }

    /** `time.time()`. */
    method Time() returns (t: real)
      modifies this`now
      ensures old(now) <= t && now == t
    {
      t := now;
    }

    /** `asyncio.sleep(d)`, or a wait that runs out after d seconds; d <= 0 returns at once. */
    method Sleep(d: real)
      modifies this
      ensures now >= old(now) && now >= old(now) + d
      ensures waits == old(waits) + [d]
    {
      waits := waits + [d];
      if d > 0.0 {
        now := now + d;
      }
    }
  }
}
