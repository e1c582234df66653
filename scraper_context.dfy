/**
 * The watch loop. A `ScraperContext` holds the state the network handlers
 * and the session share: the request-id sets, the queue of feed items, the
 * seen-ledger of video ids and the list of videos watched so far. A
 * session pops items until its deadline, decides for each whether to watch
 * it, and stores what it watched when it ends.
 */
module Scraper {
  import opened Wrappers
  import opened Values
  import opened Numbers
  import opened Browser
  import opened Utils
  import opened Configuration

  /** Responses whose URL starts with this carry feed items. */
  const TargetEndpoint: string := "https://www.tiktok.com/api/recommend/item_list"
  const ForYouUrl: string := "https://www.tiktok.com/foryou"
  const LedgerFileName: string := "processed_video_ids.json"
  /** The id a video without an "id" entry is filed under. */
  const UnknownId: Value := Str("Unknown ID")
  /** The longest single wait for the next feed item, in seconds. */
  const MaxWait: real := 60.0

  /** `video.get("id", "Unknown ID")`; a video that is not a dict has no `.get`. */
  function VideoId(video: Value): (r: Result<Value, Exception>)
    ensures r.Ok? <==> video.Object?
    ensures !video.Object? ==> r == Err(AttributeError)
    ensures video.Object? && !HasKey(video.fields, "id") ==> r == Ok(UnknownId)
    ensures video.Object? && HasKey(video.fields, "id") ==> ("id", r.value) in video.fields
  {
    match video
    case Object(fields) => Ok(GetOr(fields, "id", UnknownId))
    case _ => Err(AttributeError)
  }

  /** The ids of the videos that have one. */
  function IdsOf(videos: seq<Value>): set<Value> {
    set v | v in videos && VideoId(v).Ok? :: VideoId(v).value
  }

  /** No two of the videos share an id. */
  ghost predicate DistinctIds(videos: seq<Value>) {
    forall i, j :: 0 <= i < j < |videos| ==> VideoId(videos[i]) != VideoId(videos[j])
  }

  /** A recorded video: it has an id, the ledger holds it and the ledger loaded at start did not. */
  ghost predicate Recorded(video: Value, ledger: set<Value>, loaded: set<Value>) {
    VideoId(video).Ok? && VideoId(video).value in ledger && VideoId(video).value !in loaded
  }

  /** Among videos with distinct ids, at most one lacks an "id" entry. */
  lemma AtMostOneWithoutId(videos: seq<Value>, i: int, j: int)
    requires DistinctIds(videos)
    requires 0 <= i < |videos| && 0 <= j < |videos|
    requires videos[i].Object? && !HasKey(videos[i].fields, "id")
    requires videos[j].Object? && !HasKey(videos[j].fields, "id")
    ensures i == j
  {
  }

  /**
   * `set(json.load(f))` for the ledger file's document (`None` when there is
   * no file or it does not parse): the elements of a list, the keys of a
   * dict, the characters of a str; an error (a number, or an unhashable
   * element) leaves the ledger empty.
   */
  function LoadLedger(document: Option<Value>): (r: set<Value>)
    ensures document.None? ==> r == {}
    ensures document.Some? && document.value.Array? && (forall i :: 0 <= i < |document.value.elems| ==> Hashable(document.value.elems[i])) ==>
      r == set v | v in document.value.elems
    ensures document.Some? && Iterate(document.value).None? ==> r == {}
    ensures document.Some? && Iterate(document.value).Some? ==>
      var xs := Iterate(document.value).value;
      r == (if forall i :: 0 <= i < |xs| ==> Hashable(xs[i]) then set v | v in xs else {})
    ensures forall v :: v in r ==> Hashable(v)
  {
    match document
    case None => {}
    case Some(d) =>
      match Iterate(d)
      case None => {}
      case Some(xs) => if forall i :: 0 <= i < |xs| ==> Hashable(xs[i]) then set v | v in xs else {}
  }

  /**
   * `set(json.load(f))` after `json.dump(list(ledger), f)`: a ledger of
   * hashable ids written as a list in any order, with any repeats, loads
   * back as the same ledger.
   */
  lemma LedgerListRoundTrip(ledger: set<Value>, ids: seq<Value>)
    requires forall v :: v in ledger ==> Hashable(v)
    requires forall v :: v in ids <==> v in ledger
    ensures LoadLedger(Some(Array(ids))) == ledger
  {
    assert forall i :: 0 <= i < |ids| ==> Hashable(ids[i]) by {
      forall i | 0 <= i < |ids| ensures Hashable(ids[i]) {
        assert ids[i] in ids;
      }
    }
  }

  /** What the page shows for one article position when `process_video` looks it up. */
  datatype PageView =
    | LookupRaised(error: Exception)        // the lookup raised, e.g. timed out
    | NoArticle                             // no article at that position
    | NoVideoElement                        // the article has no <video>
    | Playing(evaluated: Option<real>)      // what the playback-position script returned

  /** How `process_video` ended. */
  datatype Outcome =
    | AlreadyViewed
    | ArticleMissing
    | VideoElementMissing
    | Watched(watchTime: real)
    | Raised(error: Exception)

  /**
   * The decision `process_video` takes for a video, given the ledger, the
   * remaining session time and what the page shows at the video's position.
   */
  function Decide(ledger: set<Value>, video: Value, remainingTime: real, page: PageView): (o: Outcome)
    ensures !video.Object? ==> o == Raised(AttributeError)
    ensures VideoId(video).Ok? && !Hashable(VideoId(video).value) ==> o == Raised(TypeError)
    ensures VideoId(video).Ok? && Hashable(VideoId(video).value) && VideoId(video).value in ledger ==> o == AlreadyViewed
    ensures o.Watched? ==>
      VideoId(video).Ok? && Hashable(VideoId(video).value) && VideoId(video).value !in ledger &&
      page.Playing? && GetVideoDuration(video).Ok?
    ensures o.Watched? && remainingTime > 0.0 ==> o.watchTime > 0.0
    ensures o.Watched? && GetVideoDuration(video).value > VideoCurrentTime(page.evaluated) ==> o.watchTime <= remainingTime
    ensures VideoId(video).Ok? && Hashable(VideoId(video).value) && VideoId(video).value !in ledger ==>
      (page.NoArticle? ==> o == ArticleMissing) &&
      (page.NoVideoElement? ==> o == VideoElementMissing) &&
      (page.LookupRaised? ==> o == Raised(page.error)) &&
      (page.Playing? && GetVideoDuration(video).Err? ==> o == Raised(GetVideoDuration(video).error)) &&
      (page.Playing? && GetVideoDuration(video).Ok? ==>
        o == Watched(CalculateTimeToWatch(GetVideoDuration(video).value, VideoCurrentTime(page.evaluated), remainingTime, DefaultWatchTime)))
  {
    match VideoId(video)
    case Err(e) => Raised(e)
    case Ok(id) =>
      if !Hashable(id) then Raised(TypeError)
      else if id in ledger then AlreadyViewed
      else
        match page
        case LookupRaised(e) => Raised(e)
        case NoArticle => ArticleMissing
        case NoVideoElement => VideoElementMissing
        case Playing(evaluated) =>
          match GetVideoDuration(video)
          case Err(e) => Raised(e)
          case Ok(duration) =>
            Watched(CalculateTimeToWatch(duration, VideoCurrentTime(evaluated), remainingTime, DefaultWatchTime))
  }

  /** The touch events of `swipe_to_next_video`: an upward swipe from (300, 700) to (300, 100). */
  function NextVideoGesture(): (r: seq<TouchEvent>)
    ensures |r| == 12
    ensures r[0] == TouchEvent(TouchStart, 300.0, 700.0)
    ensures forall i :: 1 <= i <= 10 ==> r[i].kind == TouchMove && r[i].x == 300.0
    ensures r[11] == TouchEvent(TouchEnd, 300.0, 100.0)
  {
    SwipeReachesEnd(300.0, 700.0, 600.0, "up", 10);
    SwipeTrace(300.0, 700.0, 600.0, "up", 10).value
  }

  /** The page requests of `navigate`: a load, and a reload and second load when the tab landed elsewhere. */
  function NavigationRequests(pageUrl: string, landedUrl: string): (r: seq<Navigation>)
    ensures |r| >= 1 && r[0] == Load(pageUrl) && r[|r| - 1] == Load(pageUrl)
    ensures |r| == 1 <==> IsSubstring(pageUrl, landedUrl)
    ensures |r| != 1 ==> r[1] == Reload && |r| == 3
  {
    if IsSubstring(pageUrl, landedUrl) then [Load(pageUrl)] else [Load(pageUrl), Reload, Load(pageUrl)]
  }

  /** The name a session's table is stored under: the user and the start and end times in whole seconds. */
  function SessionFileName(userName: string, startTime: real, endTime: real): (r: string)
    ensures userName + "_" + IntToString(Truncate(startTime)) + "__" <= r
    ensures var tail := IntToString(Truncate(endTime));
      |tail| < |r| && ParseInt(r[|r| - |tail|..]) == Some(Truncate(endTime))
  {
    var head := userName + "_" + IntToString(Truncate(startTime)) + "__";
    var tail := IntToString(Truncate(endTime));
    ParseIntOfString(Truncate(endTime));
    assert (head + tail)[|head + tail| - |tail|..] == tail;
    head + tail
  }

  /**
   * With STORAGE_PATH unset, the ledger is read from `scenario/` but
   * written to `scenario/user/`: the two paths differ.
   */
  lemma LedgerPathsDiffer(scenarioName: string, userName: string)
    requires scenarioName != "" && scenarioName[|scenarioName| - 1] != '/'
    requires userName != "" && userName[0] != '/' && userName[|userName| - 1] != '/'
    ensures PathJoin(scenarioName, LedgerFileName) != PathJoin(PathJoin(scenarioName, userName), LedgerFileName)
  {
    var storage := PathJoin(scenarioName, userName);
    assert storage == scenarioName + "/" + userName;
    assert storage[|storage| - 1] == userName[|userName| - 1];
    assert |PathJoin(storage, LedgerFileName)| == |storage| + 1 + |LedgerFileName|;
  }

  /** One `store_viewed_data`: the viewed videos as a table, and the ledger beside it. */
  datatype StoredSession = StoredSession(tablePath: string, rows: seq<Value>, ledgerPath: string, ledger: set<Value>)

  /** One pass of the session loop that got past the deadline check. */
  datatype Step =
    | Idle(remaining: real)                               // no item arrived in time
    | Handled(remaining: real, video: Value, outcome: Outcome)

  /** How the session loop ended. */
  datatype Ending = Deadline | Failed(error: Exception)

  /** The items the steps took off the queue, in order. */
  function Popped(steps: seq<Step>): seq<Value> {
    if |steps| == 0 then []
    else Popped(steps[..|steps| - 1]) + (if steps[|steps| - 1].Handled? then [steps[|steps| - 1].video] else [])
  }

  /** The items the steps watched, in order. */
  function WatchedVideos(steps: seq<Step>): seq<Value> {
    if |steps| == 0 then []
    else
      var s := steps[|steps| - 1];
      WatchedVideos(steps[..|steps| - 1]) + (if s.Handled? && s.outcome.Watched? then [s.video] else [])
  }

  /** The number of steps whose `process_video` returned rather than raised. */
  function CompletedCount(steps: seq<Step>): nat {
    if |steps| == 0 then 0
    else
      var s := steps[|steps| - 1];
      CompletedCount(steps[..|steps| - 1]) + (if s.Handled? && !s.outcome.Raised? then 1 else 0)
  }

  /** A step that ends the session: `process_video` raised something other than a TimeoutError. */
  predicate Fatal(s: Step) {
    s.Handled? && s.outcome.Raised? && s.outcome.error != TimeoutError
  }

  /** The touch events of a step: one swipe on for a video watched or skipped as seen. */
  function StepGesture(s: Step): (r: seq<TouchEvent>)
    ensures r == [] || r == NextVideoGesture()
    ensures r != [] <==> s.Handled? && (s.outcome.Watched? || s.outcome.AlreadyViewed?)
  {
    if s.Handled? && (s.outcome.Watched? || s.outcome.AlreadyViewed?) then NextVideoGesture() else []
  }

  /** The touch events of the steps, in order. */
  function Gestures(steps: seq<Step>): seq<TouchEvent> {
    if |steps| == 0 then [] else Gestures(steps[..|steps| - 1]) + StepGesture(steps[|steps| - 1])
  }

  lemma StepsSnoc(steps: seq<Step>, s: Step)
    ensures Gestures(steps + [s]) == Gestures(steps) + StepGesture(s)
    ensures Popped(steps + [s]) == Popped(steps) + (if s.Handled? then [s.video] else [])
    ensures WatchedVideos(steps + [s]) == WatchedVideos(steps) + (if s.Handled? && s.outcome.Watched? then [s.video] else [])
    ensures CompletedCount(steps + [s]) == CompletedCount(steps) + (if s.Handled? && !s.outcome.Raised? then 1 else 0)
  {
    assert (steps + [s])[..|steps|] == steps;
  }

  /**
   * What a run of the watch loop has done so far, starting from queue
   * `queue0`, viewed list `viewed0` and ledger `ledger0`: it took `calls`
   * items off the front of the queue, recorded exactly the watched ones,
   * never one whose id was in the ledger, and advanced the position
   * counter `index` once per item processed without an exception.
   */
  ghost predicate RunSoFar(queue0: seq<Value>, viewed0: seq<Value>, ledger0: set<Value>, steps: seq<Step>,
                           calls: nat, index: int, queue: seq<Value>, viewed: seq<Value>, ledger: set<Value>)
  {
    (forall k :: 0 <= k < |steps| ==> steps[k].remaining > 0.0) &&
    calls == |Popped(steps)| <= |queue0| &&
    Popped(steps) == queue0[..calls] && queue == queue0[calls..] &&
    viewed == viewed0 + WatchedVideos(steps) &&
    ledger == ledger0 + IdsOf(WatchedVideos(steps)) &&
    (forall v :: v in WatchedVideos(steps) ==> VideoId(v).Ok? && VideoId(v).value !in ledger0) &&
    index == CompletedCount(steps)
  }

  /**
   * The step after `before`, taken at clock reading `reading`: its
   * remaining time is what the reading left; an idle step found every item
   * taken already; a handled step's outcome is the decision for its video
   * under the ledger as it then stood, with the page the `process_video`
   * call numbered `|Popped(before)|` saw at position `CompletedCount(before)`.
   */
  ghost predicate StepTaken(queue0: seq<Value>, ledger0: set<Value>, endTime: real, pages: nat -> int -> PageView,
                            before: seq<Step>, s: Step, reading: real)
  {
    s.remaining == endTime - reading &&
    (s.Idle? ==> Popped(before) == queue0) &&
    (s.Handled? ==>
      s.outcome == Decide(ledger0 + IdsOf(WatchedVideos(before)), s.video, s.remaining,
                          pages(|Popped(before)|)(CompletedCount(before))))
  }

  /** Every step was taken, after the steps before it, as `StepTaken` says. */
  ghost predicate AllTaken(queue0: seq<Value>, ledger0: set<Value>, endTime: real, pages: nat -> int -> PageView,
                           steps: seq<Step>, readings: seq<real>)
    requires |readings| == |steps|
  {
    forall k {:trigger StepTaken(queue0, ledger0, endTime, pages, steps[..k], steps[k], readings[k])} ::
      0 <= k < |steps| ==> StepTaken(queue0, ledger0, endTime, pages, steps[..k], steps[k], readings[k])
  }

  /**
   * The log of a run: each step was taken as `StepTaken` says, at clock
   * readings that never go back, and only the last step can be fatal.
   */
  ghost predicate LogSoFar(queue0: seq<Value>, ledger0: set<Value>, endTime: real, pages: nat -> int -> PageView,
                           steps: seq<Step>, readings: seq<real>)
  {
    |readings| == |steps| &&
    AllTaken(queue0, ledger0, endTime, pages, steps, readings) &&
    Ascending(readings) &&
    (forall k :: 0 <= k < |steps| - 1 ==> !Fatal(steps[k]))
  }

  /** A step taken as `NextStep` promises, from a state `RunSoFar` describes, is a `StepTaken`. */
  lemma TakenFromRun(queue0: seq<Value>, viewed0: seq<Value>, ledger0: set<Value>, endTime: real, pages: nat -> int -> PageView,
                     steps: seq<Step>, calls: nat, index: int, queue: seq<Value>, viewed: seq<Value>, ledger: set<Value>,
                     step: Step, reading: real)
    requires RunSoFar(queue0, viewed0, ledger0, steps, calls, index, queue, viewed, ledger)
    requires step.remaining == endTime - reading
    requires step.Idle? ==> queue == []
    requires step.Handled? ==> step.outcome == Decide(ledger, step.video, step.remaining, pages(calls)(index))
    ensures StepTaken(queue0, ledger0, endTime, pages, steps, step, reading)
  {
    if step.Idle? {
      assert |queue0[calls..]| == 0;
      assert queue0[..calls] == queue0;
    }
  }

  /** Appending a step taken after the last reading, behind a step that was not fatal, keeps `LogSoFar`. */
  lemma LogExtends(queue0: seq<Value>, ledger0: set<Value>, endTime: real, pages: nat -> int -> PageView,
                   steps: seq<Step>, readings: seq<real>, step: Step, reading: real)
    requires LogSoFar(queue0, ledger0, endTime, pages, steps, readings)
    requires StepTaken(queue0, ledger0, endTime, pages, steps, step, reading)
    requires |readings| > 0 ==> readings[|readings| - 1] <= reading
    requires |steps| > 0 ==> !Fatal(steps[|steps| - 1])
    ensures LogSoFar(queue0, ledger0, endTime, pages, steps + [step], readings + [reading])
  {
    TakenExtends(queue0, ledger0, endTime, pages, steps, readings, step, reading);
    AscendingExtends(readings, reading);
    var steps' := steps + [step];
    forall k | 0 <= k < |steps'| - 1
      ensures !Fatal(steps'[k])
    {
      assert steps'[k] == steps[k];
    }
  }

  /** The `AllTaken` part of `LogExtends`. */
  lemma TakenExtends(queue0: seq<Value>, ledger0: set<Value>, endTime: real, pages: nat -> int -> PageView,
                     steps: seq<Step>, readings: seq<real>, step: Step, reading: real)
    requires |readings| == |steps| && AllTaken(queue0, ledger0, endTime, pages, steps, readings)
    requires StepTaken(queue0, ledger0, endTime, pages, steps, step, reading)
    ensures AllTaken(queue0, ledger0, endTime, pages, steps + [step], readings + [reading])
  {
    var steps', readings' := steps + [step], readings + [reading];
    forall k | 0 <= k < |steps'|
      ensures StepTaken(queue0, ledger0, endTime, pages, steps'[..k], steps'[k], readings'[k])
    {
      if k < |steps| {
        assert steps'[..k] == steps[..k] && steps'[k] == steps[k] && readings'[k] == readings[k];
      } else {
        assert steps'[..k] == steps;
      }
    }
  }

  /** Clock readings that never go back. */
  ghost predicate Ascending(readings: seq<real>) {
    forall i, j :: 0 <= i <= j < |readings| ==> readings[i] <= readings[j]
  }

  lemma AscendingExtends(readings: seq<real>, reading: real)
    requires Ascending(readings)
    requires |readings| > 0 ==> readings[|readings| - 1] <= reading
    ensures Ascending(readings + [reading])
  {
    var readings' := readings + [reading];
    forall i, j | 0 <= i <= j < |readings'|
      ensures readings'[i] <= readings'[j]
    {
      if j == |readings| && i < j {
        assert readings[i] <= readings[|readings| - 1];
      }
    }
  }

  /** One more step of the loop, with the effect `NextStep` promises, keeps `RunSoFar`. */
  lemma RunExtends(queue0: seq<Value>, viewed0: seq<Value>, ledger0: set<Value>, steps: seq<Step>,
                   calls: nat, index: int, queue: seq<Value>, viewed: seq<Value>, ledger: set<Value>,
                   step: Step, queue': seq<Value>, viewed': seq<Value>, ledger': set<Value>)
    requires RunSoFar(queue0, viewed0, ledger0, steps, calls, index, queue, viewed, ledger)
    requires step.remaining > 0.0
    requires step.Idle? ==> queue' == queue
    requires step.Handled? ==> queue == [step.video] + queue'
    requires step.Handled? && step.outcome.Watched? ==>
      VideoId(step.video).Ok? && VideoId(step.video).value !in ledger &&
      viewed' == viewed + [step.video] && ledger' == ledger + {VideoId(step.video).value}
    requires !(step.Handled? && step.outcome.Watched?) ==> viewed' == viewed && ledger' == ledger
    ensures RunSoFar(queue0, viewed0, ledger0, steps + [step],
                     calls + (if step.Handled? then 1 else 0),
                     index + (if step.Handled? && !step.outcome.Raised? then 1 else 0),
                     queue', viewed', ledger')
  {
    StepsSnoc(steps, step);
    QueueAdvances(queue0, steps, calls, queue, step, queue');
    RecordAdvances(viewed0, ledger0, WatchedVideos(steps), viewed, ledger, step, viewed', ledger');
  }

  /** The queue part of `RunExtends`: a handled step took the next item off the queue. */
  lemma QueueAdvances(queue0: seq<Value>, steps: seq<Step>, calls: nat, queue: seq<Value>, step: Step, queue': seq<Value>)
    requires calls == |Popped(steps)| <= |queue0|
    requires Popped(steps) == queue0[..calls] && queue == queue0[calls..]
    requires step.Idle? ==> queue' == queue
    requires step.Handled? ==> queue == [step.video] + queue'
    ensures var calls' := calls + (if step.Handled? then 1 else 0);
      calls' == |Popped(steps + [step])| <= |queue0| &&
      Popped(steps + [step]) == queue0[..calls'] && queue' == queue0[calls'..]
  {
    StepsSnoc(steps, step);
    if step.Handled? {
      assert queue0[calls] == step.video;
      assert queue0[..calls + 1] == queue0[..calls] + [step.video];
      assert queue' == queue0[calls + 1..];
    }
  }

  /** The recording part of `RunExtends`: a watched step records its video once, under a new id. */
  lemma RecordAdvances(viewed0: seq<Value>, ledger0: set<Value>, watched: seq<Value>, viewed: seq<Value>, ledger: set<Value>,
                       step: Step, viewed': seq<Value>, ledger': set<Value>)
    requires viewed == viewed0 + watched && ledger == ledger0 + IdsOf(watched)
    requires forall v :: v in watched ==> VideoId(v).Ok? && VideoId(v).value !in ledger0
    requires step.Handled? && step.outcome.Watched? ==>
      VideoId(step.video).Ok? && VideoId(step.video).value !in ledger &&
      viewed' == viewed + [step.video] && ledger' == ledger + {VideoId(step.video).value}
    requires !(step.Handled? && step.outcome.Watched?) ==> viewed' == viewed && ledger' == ledger
    ensures var watched' := watched + (if step.Handled? && step.outcome.Watched? then [step.video] else []);
      viewed' == viewed0 + watched' && ledger' == ledger0 + IdsOf(watched') &&
      forall v :: v in watched' ==> VideoId(v).Ok? && VideoId(v).value !in ledger0
  {
    if step.Handled? && step.outcome.Watched? {
      assert IdsOf(watched + [step.video]) == IdsOf(watched) + {VideoId(step.video).value};
    } else {
      assert watched + [] == watched;
    }
  }

  /**
   * Everything the watch loop keeps track of at the top of a pass: the
   * effect of its steps on the queue, the records and the tab (`RunSoFar`,
   * and `touches`), and how each step was taken (`LogSoFar`).
   */
  ghost predicate Progress(queue0: seq<Value>, viewed0: seq<Value>, ledger0: set<Value>, touches0: seq<TouchEvent>,
                           endTime: real, pages: nat -> int -> PageView, steps: seq<Step>, readings: seq<real>,
                           calls: nat, index: int, queue: seq<Value>, viewed: seq<Value>, ledger: set<Value>, touches: seq<TouchEvent>)
  {
    RunSoFar(queue0, viewed0, ledger0, steps, calls, index, queue, viewed, ledger) &&
    LogSoFar(queue0, ledger0, endTime, pages, steps, readings) &&
    touches == touches0 + Gestures(steps)
  }

  /** One pass with the effect `NextStep` promises, at a reading no earlier than the last, keeps `Progress`. */
  lemma ProgressExtends(queue0: seq<Value>, viewed0: seq<Value>, ledger0: set<Value>, touches0: seq<TouchEvent>,
                        endTime: real, pages: nat -> int -> PageView, steps: seq<Step>, readings: seq<real>,
                        calls: nat, index: int, queue: seq<Value>, viewed: seq<Value>, ledger: set<Value>, touches: seq<TouchEvent>,
                        step: Step, reading: real, queue': seq<Value>, viewed': seq<Value>, ledger': set<Value>, touches': seq<TouchEvent>)
    requires Progress(queue0, viewed0, ledger0, touches0, endTime, pages, steps, readings,
                      calls, index, queue, viewed, ledger, touches)
    requires |steps| > 0 ==> !Fatal(steps[|steps| - 1])
    requires |readings| > 0 ==> readings[|readings| - 1] <= reading
    requires step.remaining == endTime - reading && step.remaining > 0.0
    requires step.Idle? ==> queue' == queue == []
    requires step.Handled? ==> queue == [step.video] + queue'
    requires step.Handled? ==> step.outcome == Decide(ledger, step.video, step.remaining, pages(calls)(index))
    requires step.Handled? && step.outcome.Watched? ==>
      VideoId(step.video).Ok? && VideoId(step.video).value !in ledger &&
      viewed' == viewed + [step.video] && ledger' == ledger + {VideoId(step.video).value}
    requires !(step.Handled? && step.outcome.Watched?) ==> viewed' == viewed && ledger' == ledger
    requires touches' == touches + StepGesture(step)
    ensures Progress(queue0, viewed0, ledger0, touches0, endTime, pages, steps + [step], readings + [reading],
                     calls + (if step.Handled? then 1 else 0),
                     index + (if step.Handled? && !step.outcome.Raised? then 1 else 0),
                     queue', viewed', ledger', touches')
  {
    TakenFromRun(queue0, viewed0, ledger0, endTime, pages, steps, calls, index, queue, viewed, ledger, step, reading);
    LogExtends(queue0, ledger0, endTime, pages, steps, readings, step, reading);
    RunExtends(queue0, viewed0, ledger0, steps, calls, index, queue, viewed, ledger, step, queue', viewed', ledger');
    StepsSnoc(steps, step);
    AppendAssociates(touches0, Gestures(steps), StepGesture(step));
  }

  /**
   * A run of the watch loop from queue `queue0`, viewed list `viewed0`,
   * ledger `ledger0` and touch trace `touches0`: every step had time left
   * and was taken as `StepTaken` says (`RunStepwise` spells this out), at
   * clock readings that never go back; no step but the last was fatal. The
   * queue lost exactly the items taken, in order; the viewed list and the
   * ledger gained exactly the watched videos and their ids, none of which
   * was in the ledger before; the position counter is `index`; and the tab
   * got one swipe per video watched or skipped as seen.
   */
  ghost predicate RunLogged(queue0: seq<Value>, viewed0: seq<Value>, ledger0: set<Value>, touches0: seq<TouchEvent>,
                            endTime: real, pages: nat -> int -> PageView, steps: seq<Step>, readings: seq<real>,
                            index: int, queue: seq<Value>, viewed: seq<Value>, ledger: set<Value>, touches: seq<TouchEvent>)
  {
    (forall k :: 0 <= k < |steps| ==> steps[k].remaining > 0.0) &&
    |readings| == |steps| &&
    AllTaken(queue0, ledger0, endTime, pages, steps, readings) &&
    Ascending(readings) &&
    (forall k :: 0 <= k < |steps| - 1 ==> !Fatal(steps[k])) &&
    queue0 == Popped(steps) + queue &&
    viewed == viewed0 + WatchedVideos(steps) &&
    ledger == ledger0 + IdsOf(WatchedVideos(steps)) &&
    (forall v :: v in WatchedVideos(steps) ==> VideoId(v).Ok? && VideoId(v).value !in ledger0) &&
    index == CompletedCount(steps) &&
    touches == touches0 + Gestures(steps)
  }

  /**
   * Each step of a logged run, spelled out: it had `endTime - readings[k]`
   * left; an idle step found every item taken already; a handled step's
   * outcome is the decision for its video under the ledger as it then
   * stood, with the page the `process_video` call numbered
   * `|Popped(steps[..k])|` saw at position `CompletedCount(steps[..k])`.
   */
  lemma RunStepwise(queue0: seq<Value>, viewed0: seq<Value>, ledger0: set<Value>, touches0: seq<TouchEvent>,
                    endTime: real, pages: nat -> int -> PageView, steps: seq<Step>, readings: seq<real>,
                    index: int, queue: seq<Value>, viewed: seq<Value>, ledger: set<Value>, touches: seq<TouchEvent>)
    requires RunLogged(queue0, viewed0, ledger0, touches0, endTime, pages, steps, readings, index, queue, viewed, ledger, touches)
    ensures forall k :: 0 <= k < |steps| ==> steps[k].remaining == endTime - readings[k]
    ensures forall k :: 0 <= k < |steps| && steps[k].Idle? ==> Popped(steps[..k]) == queue0
    ensures forall k :: 0 <= k < |steps| && steps[k].Handled? ==>
      steps[k].outcome == Decide(ledger0 + IdsOf(WatchedVideos(steps[..k])), steps[k].video, steps[k].remaining,
                                 pages(|Popped(steps[..k])|)(CompletedCount(steps[..k])))
  {
    forall k | 0 <= k < |steps|
      ensures StepTaken(queue0, ledger0, endTime, pages, steps[..k], steps[k], readings[k])
    {
    }
  }

  /**
   * With the clock readings of a logged run taken as the times the loop
   * called `get_next_video` (as `WatchUntilDeadline` ensures), every such
   * call came before the deadline: no item is taken once it has passed.
   */
  lemma PollsBeforeDeadline(queue0: seq<Value>, viewed0: seq<Value>, ledger0: set<Value>, touches0: seq<TouchEvent>,
                            endTime: real, pages: nat -> int -> PageView, steps: seq<Step>, readings: seq<real>,
                            index: int, queue: seq<Value>, viewed: seq<Value>, ledger: set<Value>, touches: seq<TouchEvent>,
                            polls0: seq<real>, polls: seq<real>)
    requires RunLogged(queue0, viewed0, ledger0, touches0, endTime, pages, steps, readings, index, queue, viewed, ledger, touches)
    requires polls == polls0 + readings
    ensures |polls| == |polls0| + |steps|
    ensures forall k :: |polls0| <= k < |polls| ==> polls[k] < endTime
  {
    RunStepwise(queue0, viewed0, ledger0, touches0, endTime, pages, steps, readings, index, queue, viewed, ledger, touches);
    forall k | |polls0| <= k < |polls|
      ensures polls[k] < endTime
    {
      assert polls[k] == readings[k - |polls0|];
      assert steps[k - |polls0|].remaining > 0.0;
    }
  }

  /** `Progress` at the end of the loop is a `RunLogged` run. */
  lemma ProgressMeans(queue0: seq<Value>, viewed0: seq<Value>, ledger0: set<Value>, touches0: seq<TouchEvent>,
                      endTime: real, pages: nat -> int -> PageView, steps: seq<Step>, readings: seq<real>,
                      calls: nat, index: int, queue: seq<Value>, viewed: seq<Value>, ledger: set<Value>, touches: seq<TouchEvent>)
    requires Progress(queue0, viewed0, ledger0, touches0, endTime, pages, steps, readings,
                      calls, index, queue, viewed, ledger, touches)
    ensures RunLogged(queue0, viewed0, ledger0, touches0, endTime, pages, steps, readings, index, queue, viewed, ledger, touches)
  {
    assert queue0 == queue0[..calls] + queue0[calls..];
  }

  /** The first reading is no earlier than `lo` and the last no later than `hi`. */
  ghost predicate ReadingsWithin(readings: seq<real>, lo: real, hi: real) {
    |readings| > 0 ==> lo <= readings[0] && readings[|readings| - 1] <= hi
  }

  lemma AppendAssociates<T>(a: seq<T>, b: seq<T>, c: seq<T>)
    ensures (a + b) + c == a + (b + c)
  {
  }

  /** The whole seconds left before the deadline, plus one; zero once it has passed. */
  function Budget(remaining: real): (n: nat)
    decreases if remaining <= 0.0 then 0 else remaining.Floor + 1
  {
    if remaining <= 0.0 then 0 else 1 + Budget(remaining - 1.0)
  }

  lemma {:induction false} BudgetMonotone(a: real, b: real)
    requires a <= b
    ensures Budget(a) <= Budget(b)
    decreases if b <= 0.0 then 0 else b.Floor + 1
  {
    if a > 0.0 {
      BudgetMonotone(a - 1.0, b - 1.0);
    }
  }

  /** A wait of min(remaining, 60) seconds costs the session at least one unit of budget. */
  lemma WaitShrinksBudget(remaining: real, after: real)
    requires remaining > 0.0
    requires after <= remaining - Min(remaining, MaxWait)
    ensures Budget(after) < Budget(remaining)
  {
    if remaining > MaxWait {
      BudgetMonotone(after, remaining - 1.0);
    }
  }

  /**
   * A pass of the loop that started at `start`, read the clock at
   * `reading` with time left, and ended at `finish` never raises the
   * budget, and lowers it when the pass waited for an item in vain.
   */
  lemma PassSpendsBudget(endTime: real, start: real, reading: real, finish: real, waited: bool)
    requires start <= reading <= finish && endTime - reading > 0.0
    requires waited ==> finish >= endTime || finish >= reading + MaxWait
    ensures Budget(endTime - finish) <= Budget(endTime - start)
    ensures waited ==> Budget(endTime - finish) < Budget(endTime - start)
  {
    BudgetMonotone(endTime - finish, endTime - start);
    if waited {
      WaitShrinksBudget(endTime - reading, endTime - finish);
      BudgetMonotone(endTime - reading, endTime - start);
    }
  }

  class ScraperContext {
    /** Ids of feed responses whose body has not finished loading. */
    var pendingRequestIds: set<string>
    /** Ids of feed responses whose body was handed to the decoder. */
    var processedRequestIds: set<string>
    /** The seen-ledger: ids of videos watched in this or an earlier session. */
    var processedVideoIds: set<Value>
    /** Feed items waiting to be processed, head first. */
    var videoBatchesQueue: seq<Value>
    /** The videos watched in this session, in order. */
    var viewedVideos: seq<Value>
    const startTime: real
    const endTime: real
    const config: Config
    /** The ledger as loaded when the context was created. */
    const loadedVideoIds: set<Value>
    /** Where the ledger was read from: the ledger file under the scenario directory. */
    const ledgerSource: string
    /** What the context has written to storage, one entry per store. */
    var storedSessions: seq<StoredSession>
    /** The clock reading at each call of `get_next_video`, in order. */
    ghost var pollTimes: seq<real>

    ghost predicate Valid()
      reads this`pendingRequestIds, this`processedRequestIds, this`processedVideoIds, this`viewedVideos
    {
      pendingRequestIds !! processedRequestIds &&
      loadedVideoIds <= processedVideoIds &&
      (forall v :: v in processedVideoIds ==> Hashable(v)) &&
      (forall i :: 0 <= i < |viewedVideos| ==> Recorded(viewedVideos[i], processedVideoIds, loadedVideoIds)) &&
      DistinctIds(viewedVideos)
    }

    /**
     * `ScraperContext()` at clock reading `now`; `ledgerDocument` is the
     * JSON document in the file at `ledgerSource`, `None` when there is
     * none or it does not parse.
     */
    constructor (config: Config, now: real, ledgerDocument: Option<Value>)
      ensures this.config == config
      ensures ledgerSource == PathJoin(config.scenarioName, LedgerFileName)
      ensures startTime == now && endTime == now + config.loopDuration as real
      ensures pendingRequestIds == {} && processedRequestIds == {}
      ensures videoBatchesQueue == [] && viewedVideos == [] && storedSessions == [] && pollTimes == []
      ensures processedVideoIds == LoadLedger(ledgerDocument) && loadedVideoIds == processedVideoIds
      ensures Valid()
    {
      pendingRequestIds := {};
      processedRequestIds := {};
      processedVideoIds := LoadLedger(ledgerDocument);
      videoBatchesQueue := [];
      viewedVideos := [];
      startTime := now;
      endTime := now + config.loopDuration as real;
      loadedVideoIds := LoadLedger(ledgerDocument);
      ledgerSource := PathJoin(config.scenarioName, LedgerFileName);
      this.config := config;
      storedSessions := [];
      pollTimes := [];
    }

    /** `video_id in processed_video_ids`; an unhashable id raises TypeError. */
    function IsVideoViewed(videoId: Value): (r: Result<bool, Exception>)
      reads this
      ensures r.Ok? <==> Hashable(videoId)
      ensures r.Ok? ==> (r.value <==> videoId in processedVideoIds)
      ensures r.Err? ==> r.error == TypeError
    {
      if Hashable(videoId) then Ok(videoId in processedVideoIds) else Err(TypeError)
    }

    /**
     * `get_next_video`: the head of the queue, taken off it at once; when
     * the queue stays empty through a wait of min(remaining time, 60)
     * seconds, nothing. With a timeout that is not positive, `wait_for`
     * cancels the `get()` before it runs: nothing, the queue as it was, and
     * no wait. The call is recorded in `pollTimes` at the clock reading it
     * started at.
     */
    method GetNextVideo(clock: Clock, remainingTime: real) returns (video: Option<Value>)
      modifies this`videoBatchesQueue, this`pollTimes, clock
      ensures pollTimes == old(pollTimes) + [old(clock.now)]
      ensures Min(remainingTime, MaxWait) <= 0.0 ==>
        video == None && videoBatchesQueue == old(videoBatchesQueue) &&
        clock.now == old(clock.now) && clock.waits == old(clock.waits)
      ensures Min(remainingTime, MaxWait) > 0.0 && old(videoBatchesQueue) == [] ==>
        video == None && videoBatchesQueue == [] &&
        clock.waits == old(clock.waits) + [Min(remainingTime, MaxWait)] &&
        clock.now >= old(clock.now) + Min(remainingTime, MaxWait)
      ensures Min(remainingTime, MaxWait) > 0.0 && old(videoBatchesQueue) != [] ==>
        video == Some(old(videoBatchesQueue)[0]) && videoBatchesQueue == old(videoBatchesQueue)[1..] &&
        clock.now == old(clock.now) && clock.waits == old(clock.waits)
      ensures clock.now >= old(clock.now)
    {
      pollTimes := pollTimes + [clock.now];
      var timeout := Min(remainingTime, MaxWait);
      if timeout <= 0.0 {
        return None;
      }
      if videoBatchesQueue == [] {
        clock.Sleep(timeout);
        return None;
      }
      video := Some(videoBatchesQueue[0]);
      videoBatchesQueue := videoBatchesQueue[1..];
    }

    /**
     * `process_video`: skip a video already in the ledger with one swipe;
     * give up on a missing article or video element; otherwise watch it,
     * record it once and swipe on. `lookup` is what the page shows at each
     * article position; the video's is `lookup(videoIndex)`.
     */
    method ProcessVideo(tab: Tab, clock: Clock, video: Value, videoIndex: int, remainingTime: real, lookup: int -> PageView)
      returns (outcome: Outcome)
      requires Valid()
      modifies this`viewedVideos, this`processedVideoIds, tab`touches, clock
      ensures Valid()
      ensures outcome == Decide(old(processedVideoIds), video, remainingTime, lookup(videoIndex))
      ensures outcome.Watched? ==>
        viewedVideos == old(viewedVideos) + [video] &&
        processedVideoIds == old(processedVideoIds) + {VideoId(video).value}
      ensures !outcome.Watched? ==> viewedVideos == old(viewedVideos) && processedVideoIds == old(processedVideoIds)
      ensures outcome.Watched? || outcome.AlreadyViewed? ==> tab.touches == old(tab.touches) + NextVideoGesture()
      ensures !outcome.Watched? && !outcome.AlreadyViewed? ==> tab.touches == old(tab.touches)
      ensures clock.now >= old(clock.now)
      ensures outcome.Watched? ==> clock.now >= old(clock.now) + outcome.watchTime
    {
      var id := VideoId(video);
      if id.Err? {
        return Raised(id.error);
      }
      var viewed := IsVideoViewed(id.value);
      if viewed.Err? {
        return Raised(viewed.error);
      }
      if viewed.value {
        SwipeToNextVideo(tab, clock);
        return AlreadyViewed;
      }
      var page := lookup(videoIndex);
      if page.LookupRaised? {
        return Raised(page.error);
      }
      if page.NoArticle? {
        return ArticleMissing;
      }
      // scrolled into view, then a second's pause
      clock.Sleep(1.0);
      if page.NoVideoElement? {
        return VideoElementMissing;
      }
      var currentTime := VideoCurrentTime(page.evaluated);
      var duration := GetVideoDuration(video);
      if duration.Err? {
        return Raised(duration.error);
      }
      var timeToWatch := CalculateTimeToWatch(duration.value, currentTime, remainingTime, DefaultWatchTime);
      clock.Sleep(timeToWatch);
      viewedVideos := viewedVideos + [video];
      processedVideoIds := processedVideoIds + {id.value};
      SwipeToNextVideo(tab, clock);
      return Watched(timeToWatch);
    }

    /** `swipe_to_next_video`: one upward swipe, then a second's pause. */
    method SwipeToNextVideo(tab: Tab, clock: Clock)
      modifies tab`touches, clock
      ensures tab.touches == old(tab.touches) + NextVideoGesture()
      ensures clock.now >= old(clock.now) + 1.0
    {
      var raised := Swipe(tab, clock, 300.0, 700.0, 600.0, "up", 10, 100);
      clock.Sleep(1.0);
    }

    /** `navigate`: load the page; when the tab landed elsewhere, reload and load it again. */
    method Navigate(tab: Tab, pageUrl: string, landedUrl: string)
      modifies tab`navigations
      ensures tab.navigations == old(tab.navigations) + NavigationRequests(pageUrl, landedUrl)
    {
      tab.Request(Load(pageUrl));
      if !IsSubstring(pageUrl, landedUrl) {
        tab.Request(Reload);
        tab.Request(Load(pageUrl));
      }
    }

    /** `dismiss_cookie_banner`: a tap at (270, 710) when the banner is on the page. */
    method DismissCookieBanner(tab: Tab, bannerShown: bool)
      modifies tab`touches
      ensures bannerShown ==> tab.touches == old(tab.touches) + [TouchEvent(TouchStart, 270.0, 710.0), TouchEvent(TouchEnd, 270.0, 710.0)]
      ensures !bannerShown ==> tab.touches == old(tab.touches)
    {
      if bannerShown {
        TapOnElement(tab, 270.0, 710.0);
      }
    }

    /** What `store_viewed_data(fileName)` writes: the viewed videos and the ledger, under the storage path. */
    function Snapshot(fileName: string): StoredSession
      reads this`viewedVideos, this`processedVideoIds, config`storagePath
    {
      StoredSession(PathJoin(config.storagePath, fileName + ".parquet"), viewedVideos,
                    PathJoin(config.storagePath, LedgerFileName), processedVideoIds)
    }

    /** `store_viewed_data`: writes the viewed videos as a table, then saves the ledger. */
    method StoreViewedData(fileName: string)
      modifies this`storedSessions
      ensures storedSessions == old(storedSessions) + [Snapshot(fileName)]
      ensures storedSessions[|storedSessions| - 1].rows == viewedVideos
      ensures storedSessions[|storedSessions| - 1].ledger == processedVideoIds
    {
      storedSessions := storedSessions + [Snapshot(fileName)];
    }

    /**
     * One pass of the session loop after the deadline check: wait for the
     * next item and process it. A TimeoutError from processing is caught
     * and costs a second's pause; any other exception is `fatal` and ends
     * the session.
     */
    method NextStep(tab: Tab, clock: Clock, remainingTime: real, videoIndex: int, lookup: int -> PageView)
      returns (step: Step, fatal: Option<Exception>)
      requires Valid()
      requires remainingTime > 0.0 && remainingTime == endTime - clock.now
      modifies this`videoBatchesQueue, this`viewedVideos, this`processedVideoIds, this`pollTimes, tab`touches, clock
      ensures Valid()
      ensures pollTimes == old(pollTimes) + [old(clock.now)]
      ensures step.remaining == remainingTime
      ensures step.Idle? ==> videoBatchesQueue == old(videoBatchesQueue) == []
      ensures step.Handled? ==> old(videoBatchesQueue) == [step.video] + videoBatchesQueue
      ensures step.Handled? ==> step.outcome == Decide(old(processedVideoIds), step.video, step.remaining, lookup(videoIndex))
      ensures step.Handled? && step.outcome.Watched? ==>
        VideoId(step.video).Ok? && VideoId(step.video).value !in old(processedVideoIds) &&
        viewedVideos == old(viewedVideos) + [step.video] &&
        processedVideoIds == old(processedVideoIds) + {VideoId(step.video).value}
      ensures !(step.Handled? && step.outcome.Watched?) ==>
        viewedVideos == old(viewedVideos) && processedVideoIds == old(processedVideoIds)
      ensures fatal.Some? <==> step.Handled? && step.outcome.Raised? && step.outcome.error != TimeoutError
      ensures fatal.Some? ==> fatal.value == step.outcome.error
      ensures step.Idle? ==>
        clock.now >= old(clock.now) + Min(remainingTime, MaxWait) &&
        clock.waits == old(clock.waits) + [Min(remainingTime, MaxWait)]
      ensures tab.touches == old(tab.touches) + StepGesture(step)
      ensures clock.now >= old(clock.now)
    {
      var video := GetNextVideo(clock, remainingTime);
      if video.None? {
        return Idle(remainingTime), None;
      }
      var outcome := ProcessVideo(tab, clock, video.value, videoIndex, remainingTime, lookup);
      step := Handled(remainingTime, video.value, outcome);
      fatal := None;
      if outcome.Raised? {
        if outcome.error == TimeoutError {
          clock.Sleep(1.0);
        } else {
          fatal := Some(outcome.error);
        }
      }
    }

    /**
     * The deadline checks at the top of the loop: the loop condition, then
     * the remaining time read again. The pass goes on (`open`) when the
     * second reading `now` leaves time.
     */
    method CheckDeadline(clock: Clock) returns (open: bool, now: real)
      modifies clock
      ensures old(clock.now) <= now == clock.now
      ensures open <==> endTime - now > 0.0
    {
      now := clock.Time();
      if now >= endTime {
        return false, now;
      }
      now := clock.Time();
      var remainingTime := endTime - now;
      open := remainingTime > 0.0;
    }

    /**
     * One pass of the watch loop after its deadline check, at clock reading
     * `now`: `NextStep`, with the run so far extended by the step it took.
     */
    method LoggedStep(tab: Tab, clock: Clock, now: real, pages: nat -> int -> PageView,
                      ghost queue0: seq<Value>, ghost viewed0: seq<Value>, ghost ledger0: set<Value>, ghost touches0: seq<TouchEvent>,
                      ghost steps: seq<Step>, ghost readings: seq<real>, calls: nat, videoIndex: int)
      returns (step: Step, fatal: Option<Exception>)
      requires Valid()
      requires now == clock.now && endTime - now > 0.0
      requires Progress(queue0, viewed0, ledger0, touches0, endTime, pages, steps, readings,
                        calls, videoIndex, videoBatchesQueue, viewedVideos, processedVideoIds, tab.touches)
      requires |steps| > 0 ==> !Fatal(steps[|steps| - 1])
      requires |readings| > 0 ==> readings[|readings| - 1] <= now
      modifies this`videoBatchesQueue, this`viewedVideos, this`processedVideoIds, this`pollTimes, tab`touches, clock
      ensures Valid()
      ensures pollTimes == old(pollTimes) + [now]
      ensures Progress(queue0, viewed0, ledger0, touches0, endTime, pages, steps + [step], readings + [now],
                       calls + (if step.Handled? then 1 else 0),
                       videoIndex + (if step.Handled? && !step.outcome.Raised? then 1 else 0),
                       videoBatchesQueue, viewedVideos, processedVideoIds, tab.touches)
      ensures fatal.Some? <==> Fatal(step)
      ensures fatal.Some? ==> step.outcome == Raised(fatal.value)
      ensures step.Idle? ==> clock.now >= endTime || clock.now >= now + MaxWait
      ensures step.Handled? ==> |videoBatchesQueue| < |old(videoBatchesQueue)|
      ensures clock.now >= old(clock.now)
    {
      ghost var queue, viewed, ledger, touches := videoBatchesQueue, viewedVideos, processedVideoIds, tab.touches;
      step, fatal := NextStep(tab, clock, endTime - now, videoIndex, pages(calls));
      ProgressExtends(queue0, viewed0, ledger0, touches0, endTime, pages, steps, readings, calls, videoIndex,
                      queue, viewed, ledger, touches, step, now, videoBatchesQueue, viewedVideos, processedVideoIds, tab.touches);
    }

    /**
     * One pass of the watch loop: the deadline check, then `NextStep`. The
     * pass goes on (`open`) when the deadline has not passed; it then takes
     * one step at clock reading `now`, and the run so far (`steps`,
     * `readings`, the call count `calls` and the position counter
     * `videoIndex`) grows by that step and reading.
     */
    method Pass(tab: Tab, clock: Clock, pages: nat -> int -> PageView,
                ghost queue0: seq<Value>, ghost viewed0: seq<Value>, ghost ledger0: set<Value>, ghost touches0: seq<TouchEvent>,
                ghost start: real, ghost polls0: seq<real>,
                ghost steps: seq<Step>, ghost readings: seq<real>, calls: nat, videoIndex: int)
      returns (open: bool, fatal: Option<Exception>,
               ghost steps': seq<Step>, ghost readings': seq<real>, calls': nat, videoIndex': int)
      requires Valid()
      requires Progress(queue0, viewed0, ledger0, touches0, endTime, pages, steps, readings,
                        calls, videoIndex, videoBatchesQueue, viewedVideos, processedVideoIds, tab.touches)
      requires |steps| > 0 ==> !Fatal(steps[|steps| - 1])
      requires start <= clock.now && ReadingsWithin(readings, start, clock.now)
      requires pollTimes == polls0 + readings
      modifies this`videoBatchesQueue, this`viewedVideos, this`processedVideoIds, this`pollTimes, tab`touches, clock
      ensures Valid()
      ensures start <= clock.now && ReadingsWithin(readings', start, clock.now)
      ensures pollTimes == polls0 + readings'
      ensures Progress(queue0, viewed0, ledger0, touches0, endTime, pages, steps', readings',
                       calls', videoIndex', videoBatchesQueue, viewedVideos, processedVideoIds, tab.touches)
      ensures !open ==> fatal.None? && steps' == steps && readings' == readings && clock.now >= endTime
      ensures open ==>
        |steps'| == |steps| + 1 && steps'[..|steps|] == steps && readings'[..|readings|] == readings &&
        old(clock.now) <= readings'[|steps|] <= clock.now && endTime - readings'[|steps|] > 0.0
      ensures fatal.None? <==> |steps'| == 0 || !Fatal(steps'[|steps'| - 1])
      ensures fatal.Some? ==> |steps'| > 0 && steps'[|steps'| - 1].outcome == Raised(fatal.value)
      ensures open && fatal.None? ==>
        Budget(endTime - clock.now) < Budget(endTime - old(clock.now)) ||
        (Budget(endTime - clock.now) == Budget(endTime - old(clock.now)) && |videoBatchesQueue| < |old(videoBatchesQueue)|)
    {
      ghost var head := clock.now;
      var now;
      open, now := CheckDeadline(clock);
      if !open {
        return open, None, steps, readings, calls, videoIndex;
      }
      var step;
      step, fatal := LoggedStep(tab, clock, now, pages, queue0, viewed0, ledger0, touches0, steps, readings, calls, videoIndex);
      PassSpendsBudget(endTime, head, now, clock.now, step.Idle?);
      steps', readings' := steps + [step], readings + [now];
      calls' := calls + (if step.Handled? then 1 else 0);
      videoIndex' := videoIndex + (if step.Handled? && !step.outcome.Raised? then 1 else 0);
      assert steps'[..|steps|] == steps && readings'[..|readings|] == readings;
      AppendAssociates(polls0, readings, [now]);
    }

    /**
     * The loop of `browse_fyp`: until the deadline, take the next item and
     * process it. `pages(c)` is what the page shows during the `process_video`
     * call numbered `c`. The ghost results describe the run: one step per
     * pass that got past the deadline check, the clock reading each such
     * pass took, the position counter, and how the loop ended.
     */
    method WatchUntilDeadline(tab: Tab, clock: Clock, pages: nat -> int -> PageView)
      returns (ghost steps: seq<Step>, ghost readings: seq<real>, ghost videoIndex: int, ghost ending: Ending)
      requires Valid()
      modifies this`videoBatchesQueue, this`viewedVideos, this`processedVideoIds, this`pollTimes, tab`touches, clock
      ensures Valid()
      ensures pollTimes == old(pollTimes) + readings
      ensures RunLogged(old(videoBatchesQueue), old(viewedVideos), old(processedVideoIds), old(tab.touches), endTime, pages,
                        steps, readings, videoIndex, videoBatchesQueue, viewedVideos, processedVideoIds, tab.touches)
      ensures ReadingsWithin(readings, old(clock.now), clock.now)
      ensures ending.Deadline? ==> clock.now >= endTime && (|steps| == 0 || !Fatal(steps[|steps| - 1]))
      ensures ending.Failed? ==>
        |steps| > 0 && Fatal(steps[|steps| - 1]) && steps[|steps| - 1].outcome == Raised(ending.error)
      ensures clock.now >= old(clock.now)
    {
      ghost var queue0, viewed0, ledger0, touches0, start := videoBatchesQueue, viewedVideos, processedVideoIds, tab.touches, clock.now;
      ghost var polls0 := pollTimes;
      var globalVideoIndex := 0;
      var calls: nat := 0;
      steps := [];
      readings := [];
      ending := Deadline;
      while true
        invariant Valid()
        invariant start <= clock.now && ReadingsWithin(readings, start, clock.now)
        invariant pollTimes == polls0 + readings
        invariant Progress(queue0, viewed0, ledger0, touches0, endTime, pages,
                           steps, readings, calls, globalVideoIndex, videoBatchesQueue, viewedVideos, processedVideoIds, tab.touches)
        invariant |steps| > 0 ==> !Fatal(steps[|steps| - 1])
        invariant ending == Deadline
        decreases Budget(endTime - clock.now), |videoBatchesQueue|
      {
        var open, fatal;
        open, fatal, steps, readings, calls, globalVideoIndex :=
          Pass(tab, clock, pages, queue0, viewed0, ledger0, touches0, start, polls0, steps, readings, calls, globalVideoIndex);
        if !open {
          break;
        }
        if fatal.Some? {
          ending := Failed(fatal.value);
          break;
        }
      }
      ProgressMeans(queue0, viewed0, ledger0, touches0, endTime, pages,
                    steps, readings, calls, globalVideoIndex, videoBatchesQueue, viewedVideos, processedVideoIds, tab.touches);
      videoIndex := globalVideoIndex;
    }

    /**
     * `browse_fyp`: open the For You page, wait five seconds, dismiss the
     * cookie banner, run the watch loop, and store the session exactly once
     * however the loop ended. The tab lands on `landedUrl`.
     */
    method BrowseFyp(tab: Tab, clock: Clock, landedUrl: string, bannerShown: bool, pages: nat -> int -> PageView)
      returns (ghost steps: seq<Step>, ghost readings: seq<real>, ghost videoIndex: int, ghost ending: Ending)
      requires Valid()
      modifies this`videoBatchesQueue, this`viewedVideos, this`processedVideoIds, this`pollTimes, this`storedSessions
      modifies tab, clock
      ensures Valid()
      ensures pendingRequestIds == old(pendingRequestIds) && processedRequestIds == old(processedRequestIds)
      ensures tab.navigations == old(tab.navigations) + NavigationRequests(ForYouUrl, landedUrl)
      ensures RunLogged(old(videoBatchesQueue), old(viewedVideos), old(processedVideoIds),
                        old(tab.touches) + (if bannerShown then [TouchEvent(TouchStart, 270.0, 710.0), TouchEvent(TouchEnd, 270.0, 710.0)] else []),
                        endTime, pages, steps, readings, videoIndex, videoBatchesQueue, viewedVideos, processedVideoIds, tab.touches)
      ensures ReadingsWithin(readings, old(clock.now) + 5.0, clock.now)
      ensures pollTimes == old(pollTimes) + readings
      ensures ending.Deadline? ==> clock.now >= endTime && (|steps| == 0 || !Fatal(steps[|steps| - 1]))
      ensures ending.Failed? ==>
        |steps| > 0 && Fatal(steps[|steps| - 1]) && steps[|steps| - 1].outcome == Raised(ending.error)
      ensures storedSessions == old(storedSessions) + [Snapshot(SessionFileName(config.userName, startTime, clock.now))]
    {
      Navigate(tab, ForYouUrl, landedUrl);
      clock.Sleep(5.0);
      ghost var settled := clock.now;
      assert settled >= old(clock.now) + 5.0;
      DismissCookieBanner(tab, bannerShown);
      ghost var touches := tab.touches;
      assert touches == old(tab.touches) + (if bannerShown then [TouchEvent(TouchStart, 270.0, 710.0), TouchEvent(TouchEnd, 270.0, 710.0)] else []);
      steps, readings, videoIndex, ending := WatchUntilDeadline(tab, clock, pages);
      var finishedAt := clock.Time();
      StoreViewedData(SessionFileName(config.userName, startTime, finishedAt));
    }
  }
}
