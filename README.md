# A verified model of a TikTok For You feed watcher

The agent drives a headless browser through TikTok's For You feed for a fixed
session time. Its core has four parts:

- **Network tracking.** Event handlers watch the browser's network traffic for
  responses from the feed endpoint `https://www.tiktok.com/api/recommend/item_list`.
  Each such response is tracked by request id: *pending* while its body loads,
  *processed* once the body has been handed to the decoder. The decoder puts the
  response's `itemList` entries, in order, on a queue.
- **Watch loop.** Until the session deadline (`start_time + loop_duration`), the
  loop takes the next item off the queue and decides what to do with it:
  - skip it with one swipe when its id is in the seen-ledger;
  - give up on it when the page shows no article or no video at the current
    position;
  - otherwise watch it for as long as is left of it (capped by the remaining
    session time; 5 seconds when nothing is left), record it in the viewed list
    and the ledger, and swipe on to the next video.

  When the loop ends, by deadline or by an exception, the viewed list and the
  ledger are stored exactly once.
- **Helpers.** These compute the watch time and a video's duration, and turn
  swipes and taps into the touch events the tab receives.
- **Configuration.** Settings are read from the process environment: loop
  duration, scenario, user, language, storage and log paths, browser options and
  an optional proxy.

Modules, one per source file plus shared foundations:

- `Wrappers` (Option, Result);
- `Values` (feed items as JSON values, the way Python sees them);
- `Numbers` (`int()`, `str()`, `float()` on strings, and truncation);
- `Browser` (the tab as the trace of what it was sent, and a monotone clock);
- `Utils`, `Scraper`, `EventHandling`, `Configuration`.

Feed items are arbitrary JSON values, not typed records. The source applies
`.get` and `in` to whatever the decoder produced, so the model keeps every
shape. The error a non-dict item raises is part of the model.

## Model

| member | source | states |
|---|---|---|
| `Numbers.IntToString` | src/agent/scraper_context.py:67 | `str(n)` of an int: a non-empty run of digits for n >= 0, and '-' followed by digits for a negative n |
| `Numbers.ParseInt` | src/agent/config.py:19-20 | `int(s)` on a string: only an optional sign followed by decimal digits is accepted (anything else is ValueError, `None`); plain digits and '+' digits give their decimal value, '-' digits its negation |
| `Numbers.ParseIntOfString` | src/agent/config.py:19-20 | `int(str(n)) == n` for every int, so an unset variable yields its default |
| `Numbers.ParseFloat` | src/agent/utils.py:69 | `float(s)` on a str: accepted exactly when s is an optional sign followed by digits with at most one '.' and at least one digit (`DecimalForm`), anything else is ValueError (`None`); a run of digits reads as its whole number |
| `Numbers.UnsignedDecimalAccepts` | src/agent/utils.py:69 | the unsigned reader accepts exactly digits with at most one '.' and at least one digit |
| `Numbers.ParseFloatDecimal` | src/agent/utils.py:69 | `float("w.f")` of digit runs w and f, not both empty, is w plus f divided by 10 to the number of fraction digits |
| `Numbers.ParseFloatNegated` | src/agent/utils.py:69 | a leading '-' is accepted exactly when the unsigned string is, and negates its value |
| `Numbers.ParseFloatPlus` | src/agent/utils.py:69 | a leading '+' changes neither acceptance nor the value: `float("+" + s) == float(s)` for an unsigned s |
| `Numbers.ParseFloatOfString` | src/agent/utils.py:69 | `float(str(n)) == n` for every int, so a duration stored as an integer string converts exactly |
| `Numbers.Truncate` | src/agent/scraper_context.py:67 | `int(t)` truncates toward zero: the result is within one of t, on t's side of zero |
| `Values.Get` | src/agent/utils.py:67-68 | a dict lookup finds a value exactly when the key is present, and the value found is stored under that key |
| `Values.GetOr` | src/agent/utils.py:67-68 | `d.get(key, default)`: the stored value when the key is present, the default otherwise |
| `Values.IsSubstring` | src/agent/scraper_context.py:128 | `page_url in page.url`: a prefix is a substring; a substring is never longer than the text, and one of the same length is the text itself |
| `Values.SubstringOccurs` | src/agent/scraper_context.py:128 | `page_url in page.url` holds exactly when page_url occurs at some offset of the URL |
| `Values.Iterate` | src/agent/event_handlers.py:71-78 | `for x in v` visits a list's elements; None, numbers and booleans are not iterable |
| `Browser.Tab.SendTouchEvent` | src/agent/utils.py:74-110 | one dispatched touch event appends exactly that event to the tab's trace |
| `Browser.Tab.Request` | src/agent/scraper_context.py:127-134 | a page load or reload appends exactly that request |
| `Browser.Clock.Time` | src/agent/scraper_context.py:46-47 | `time.time()` never reads earlier than the previous reading |
| `Browser.Clock.Sleep` | src/agent/scraper_context.py:41 | a wait of d seconds lets at least d seconds pass, never turns the clock back, and is recorded as a wait of d in `waits` |
| `Utils.VideoCurrentTime` | src/agent/utils.py:21-42 | the playback position is the script's answer, or 0.0 when it gave none |
| `Utils.CalculateTimeToWatch` | src/agent/utils.py:44-57 | with time left in the video, the watch time is what is left capped by the remaining session time; with none left it is the default even when that exceeds the remaining time; positive whenever remaining time and default are |
| `Utils.FloatOf` | src/agent/utils.py:69-72 | `float(v)` keeps numbers, reads booleans as 1.0 and 0.0 and a str as `ParseFloat` does (accepted exactly in `DecimalForm`); None, lists and dicts fail with TypeError |
| `Utils.GetVideoDuration` | src/agent/utils.py:59-72 | a non-dict video or "video" entry raises AttributeError; otherwise the duration as a float, 0.0 when an entry is absent or conversion fails |
| `Utils.TravelIsLinear` | src/agent/utils.py:155-157 | adding the step k times, as the loop does, reaches start + k * step |
| `Utils.Moves` | src/agent/utils.py:155-159 | the i-th touch move is i steps from the start |
| `Utils.SwipeTrace` | src/agent/utils.py:112-162 | zero steps raise ZeroDivisionError and an unknown direction raises ValueError before any event; otherwise the events are a start at (x, y), `steps` moves and an end where the last move was |
| `Utils.SwipeReachesEnd` | src/agent/utils.py:138-162 | a swipe of n > 0 steps has n + 2 events and ends exactly `size` away in its direction, e.g. (x, y - size) for up |
| `Utils.Swipe` | src/agent/utils.py:112-162 | the method dispatches exactly the events of `SwipeTrace`, and none when it raises; it asks for one pause of duration/steps/1000 seconds after each move, and none when it raises |
| `Utils.MoveSteps` | src/agent/utils.py:152-159 | the movement loop of a swipe: exactly the touch moves `Moves`, one pause of the interval after each move, and it returns where the last move was |
| `Utils.DownMoveAt` | src/agent/utils.py:189-191 | the i-th move of a swipe down is at start_y - i * delta_y, at start_x |
| `Utils.SwipeDownTrace` | src/agent/utils.py:164-195 | swipe down as written: n + 2 events, all at start_x, ending with a touch end at (start_x, end_y); zero steps raise ZeroDivisionError |
| `Utils.SwipeDownOvershoots` | src/agent/utils.py:183-195 | as written, the last move lands at 2 * start_y - end_y, away from the target, whenever end_y differs from start_y |
| `Utils.SwipeDownTraceIntended` | src/agent/utils.py:164-195 | the corrected swipe down: moves toward end_y; zero steps raise ZeroDivisionError |
| `Utils.StepBetween` | src/agent/utils.py:183-190 | the k-th of n equal steps from a to b lies between a and b, and the n-th is b |
| `Utils.SwipeDownIntendedIsContinuous` | src/agent/utils.py:183-195 | in the corrected swipe down every move lies between start_y and end_y, and the last move is where the touch end is |
| `Utils.SwipeDown` | src/agent/utils.py:164-195 | the method dispatches exactly the events of `SwipeDownTrace`, and none when steps is zero; it asks for one pause of duration/steps/1000 seconds after each move, and none when steps is zero |
| `Utils.TapOnElement` | src/agent/utils.py:197-205 | a tap is a touch start followed by a touch end, both at (x, y) |
| `Configuration.GetEnv` | src/agent/config.py:10-12 | a variable that is set wins over the default |
| `Configuration.GetEnvAsInt` | src/agent/config.py:19-20 | an unset variable gives the default; a set one gives its integer value, or ValueError when it is not an integer |
| `Configuration.PathJoin` | src/agent/config.py:26 | POSIX `os.path.join`: an absolute second part replaces the first; otherwise the parts are joined with exactly one '/' |
| `Configuration.SetupStoragePath` | src/agent/config.py:25-28 | STORAGE_PATH when set, otherwise scenario/user |
| `Configuration.SetupBrowserOptions` | src/agent/config.py:22-23 | the two window options followed by the fixed option list of src/agent/options.py; none of them is a proxy option |
| `Configuration.ProxyServer` | src/agent/config.py:32-33 | a proxy is configured exactly when PROXY_SERVER is set and non-empty |
| `Configuration.Lookup` | src/agent/config.py:35-36 | `os.getenv(name, None)`: the value exactly when the variable is set |
| `Configuration.DefaultEnvironment` | tests/main.py:42-56 | with no variables set: loop duration 100, default scenario, user and language, storage path default_scenario/default_user, no proxy |
| `Configuration.OverridingEnvironment` | tests/main.py:11-29 | the test environment's values override every default, and LOOP_DURATION "120" reads as 120 |
| `Configuration.ConfigForDefaultEnvironment` | tests/main.py:42-56 | the configuration built with no variables set has loop duration 100, the default scenario, user and language, storage path default_scenario/default_user, a log file in that directory, no proxy and no proxy option |
| `Configuration.ConfigForTestEnvironment` | tests/main.py:11-40 | the configuration built in the tests' environment has loop duration 120, the test scenario, user, language, storage path and log file, a browser option `--proxy-server=http://proxy.server:8080`, and `to_dict` reports the same values |
| `Configuration.Config.constructor` | src/agent/config.py:8-17 | every attribute comes from its variable or its default; the browser options end with the proxy option exactly when a proxy is configured, and otherwise hold no proxy option |
| `Configuration.Config.SetupProxy` | src/agent/config.py:30-41 | with a proxy server, its option is appended and proxy records server and credentials; otherwise nothing changes |
| `Configuration.Config.ToDict` | src/agent/config.py:44-54 | exactly the eight settings, each holding its attribute's value |
| `Scraper.VideoId` | src/agent/scraper_context.py:80 | a dict video's "id", or "Unknown ID" when absent; a non-dict video raises AttributeError |
| `Scraper.AtMostOneWithoutId` | src/agent/scraper_context.py:80 | among videos with distinct ids, at most one lacks an "id" entry |
| `Scraper.LoadLedger` | src/agent/scraper_context.py:139-150 | no file leaves the ledger empty; a document that is not iterable leaves it empty; an iterable document gives the set of its elements when all are hashable, and the empty set when one is not; it only ever holds hashable values |
| `Scraper.LedgerListRoundTrip` | src/agent/scraper_context.py:144-156 | saving a ledger of hashable ids as a list (`json.dump(list(...))`) and loading that list back gives the same ledger |
| `Scraper.LedgerPathsDiffer` | src/agent/scraper_context.py:141-154 | with a user name, the ledger is loaded from scenario/processed_video_ids.json and saved, under the default storage path, to scenario/user/processed_video_ids.json: two different files |
| `Scraper.Decide` | src/agent/scraper_context.py:79-120 | a video whose id is in the ledger is skipped; a video is watched only when its id is hashable and not in the ledger and the page shows its video; a missing article or video element gives up on it; once the page shows the video, a duration error is raised and otherwise the watch time is `calculate_time_to_watch(duration, current time, remaining time)`; a positive remaining time gives a positive watch time |
| `Scraper.NextVideoGesture` | src/agent/scraper_context.py:122-124 | the swipe to the next video has 12 events, from (300, 700) up to (300, 100) |
| `Scraper.SessionFileName` | src/agent/scraper_context.py:67 | the stored file's name starts with `user_<int(start)>__`, and its tail reads back with `int()` as the truncated end time |
| `Scraper.NavigationRequests` | src/agent/scraper_context.py:126-134 | one load when the tab landed on a URL containing the page URL; otherwise a load, a reload and a second load |
| `Scraper.RunExtends` | src/agent/scraper_context.py:46-63 | one more pass of the loop keeps the run's record: items taken from the front of the queue, only watched items recorded, and the counter advanced for each item processed without raising |
| `Scraper.QueueAdvances` | src/agent/scraper_context.py:53 | a pass that took an item took it from the front of the queue |
| `Scraper.RecordAdvances` | src/agent/scraper_context.py:115-117 | a watched video is appended once, its id added to the ledger, and no recorded id came from the ledger the run started with |
| `Scraper.StepGesture` | src/agent/scraper_context.py:84-87 | a step swipes on once exactly when it skipped a seen video or watched one, and touches nothing otherwise |
| `Scraper.StepsSnoc` | src/agent/scraper_context.py:53-58 | the run summaries grow by exactly the new step's item, watched video, completed count and swipe |
| `Scraper.TakenFromRun` | src/agent/scraper_context.py:46-58 | a step taken as `NextStep` promises from the run so far is taken after the earlier steps: an idle step found every item popped, a handled one was decided under the ledger as it stood and the page of its call |
| `Scraper.TakenExtends` | src/agent/scraper_context.py:46-58 | a run whose every step was taken after the ones before it stays so when a further such step is appended |
| `Scraper.AscendingExtends` | src/agent/scraper_context.py:46-47 | the loop's clock readings never go back, since each reading is no earlier than the one before |
| `Scraper.LogExtends` | src/agent/scraper_context.py:46-62 | the log of a run grows by a step taken at a later reading, and only its last step can be fatal |
| `Scraper.ProgressExtends` | src/agent/scraper_context.py:46-62 | a pass with the effect `NextStep` promises keeps the run's record and its log |
| `Scraper.ProgressMeans` | src/agent/scraper_context.py:44-62 | the record kept by the loop is a logged run of its steps |
| `Scraper.RunStepwise` | src/agent/scraper_context.py:46-62 | in a logged run the k-th step had `end_time - readings[k]` left; an idle step found every item taken already; a handled step's outcome is `Decide` under the initial ledger plus the ids watched by the first k steps, with the page of call number `|Popped(steps[..k])|` at position `CompletedCount(steps[..k])` |
| `Scraper.PollsBeforeDeadline` | src/agent/scraper_context.py:46-53 | every `get_next_video` call of a logged run came at a reading before the deadline, so no item is taken once it has passed |
| `Scraper.BudgetMonotone` | src/agent/scraper_context.py:46-47 | less time left never means more budget |
| `Scraper.WaitShrinksBudget` | src/agent/scraper_context.py:72-77 | a queue wait of min(remaining, 60) seconds strictly shrinks the session's budget, so the loop ends |
| `Scraper.PassSpendsBudget` | src/agent/scraper_context.py:46-77 | a pass never raises the budget, and lowers it when it waited for an item in vain |
| `Scraper.ScraperContext.constructor` | src/agent/scraper_context.py:24-34 | end time = start time + loop duration; empty id sets, queue and viewed list; the ledger is what was loaded |
| `Scraper.ScraperContext.IsVideoViewed` | src/agent/scraper_context.py:136-137 | an id is viewed exactly when it is in the ledger; an unhashable id raises TypeError |
| `Scraper.ScraperContext.GetNextVideo` | src/agent/scraper_context.py:71-77 | each call is recorded at the clock reading it started at. With a positive timeout min(remaining, 60), a non-empty queue yields its head at once, with no wait; an empty queue yields nothing after asking for exactly that one wait, and stays empty. A timeout that is not positive yields nothing, leaves the queue as it was and waits for nothing, as `wait_for` cancels the `get()` before it runs |
| `Scraper.ScraperContext.ProcessVideo` | src/agent/scraper_context.py:79-120 | the outcome is `Decide` on the ledger; only a watched video is appended, exactly once, with its id added to the ledger; a skipped or watched video gets exactly one swipe, any other outcome none; watching takes at least the watch time |
| `Scraper.ScraperContext.SwipeToNextVideo` | src/agent/scraper_context.py:122-124 | sends exactly the next-video swipe, then waits a second |
| `Scraper.ScraperContext.Navigate` | src/agent/scraper_context.py:126-134 | sends exactly the requests of `NavigationRequests` |
| `Scraper.ScraperContext.DismissCookieBanner` | src/agent/scraper_context.py:161-165 | taps (270, 710) exactly when the banner is shown, and sends nothing otherwise |
| `Scraper.ScraperContext.StoreViewedData` | src/agent/scraper_context.py:152-173 | appends one stored session: the viewed videos as the table under the storage path and the ledger beside it |
| `Scraper.ScraperContext.NextStep` | src/agent/scraper_context.py:51-62 | one pass: exactly one `get_next_video` call, at the pass's clock reading; an item is taken from the queue head and decided by `Decide`, or the queue stayed empty through exactly one wait of min(remaining, 60) seconds; a TimeoutError is caught and any other exception is fatal; the tab gets the step's swipe |
| `Scraper.ScraperContext.CheckDeadline` | src/agent/scraper_context.py:46-50 | the pass goes on exactly when the second clock reading leaves time |
| `Scraper.ScraperContext.LoggedStep` | src/agent/scraper_context.py:51-62 | `NextStep` at a clock reading with time left extends the run's record and log by the step; a fatal step is reported with its exception; an idle step waited until the deadline or for 60 seconds |
| `Scraper.ScraperContext.Pass` | src/agent/scraper_context.py:46-62 | one pass of the loop: past the deadline nothing changes; otherwise the run grows by one step taken at a reading between the clock before and after the pass, with time left, and the `get_next_video` calls grow by that reading; the pass lowers the budget or shortens the queue unless it was fatal |
| `Scraper.ScraperContext.WatchUntilDeadline` | src/agent/scraper_context.py:44-63 | the loop terminates. The loop calls `get_next_video` once per step, at that step's clock reading (`pollTimes` grows by exactly the readings), and every reading leaves time before the deadline (`PollsBeforeDeadline`). The readings never go back and lie between the clock at entry and exit. Each step is decided by `Decide` on the ledger as it then stood and the page of its call (`RunStepwise`). The queue loses exactly the items taken, in order. The viewed list gains exactly the watched ones and the ledger exactly their ids, never an id the ledger held before. The counter equals the items processed without raising, and the tab gets one swipe per skipped or watched video. It ends either at the deadline or on the first non-timeout exception, which only the last step raised. |
| `Scraper.ScraperContext.BrowseFyp` | src/agent/scraper_context.py:36-69 | navigates to the For You page, taps the cookie banner when shown, runs the loop from five seconds later on with its `get_next_video` calls at the steps' readings, keeps the pending and processed sets, and stores the session exactly once whichever way the loop ended, under `SessionFileName(user, start, end)`; the tab's touches are the banner tap followed by the loop's swipes |
| `EventHandling.FeedItems` | src/agent/event_handlers.py:69-78 | a dict with an "itemList" list yields its elements in order; a document without "itemList" yields nothing |
| `EventHandling.DecodedItems` | src/agent/event_handlers.py:53-80 | a failed fetch, a missing body or a failed decode yields nothing; otherwise the feed items of the decoded document |
| `EventHandling.EventHandlers.constructor` | src/agent/event_handlers.py:12-13 | the handlers share the given context |
| `EventHandling.EventHandlers.ResponseReceived` | src/agent/event_handlers.py:35-43 | a feed response not yet processed becomes pending, and repeating it changes nothing more; a non-feed or already processed response changes nothing; processed never changes; pending and processed stay disjoint |
| `EventHandling.EventHandlers.LoadingFinished` | src/agent/event_handlers.py:45-51 | a decode is spawned exactly when the id was pending; then the id moves from pending to processed and the queue gains the decoded items; otherwise nothing changes; pending and processed stay disjoint |
| `EventHandling.EventHandlers.HandleResponse` | src/agent/event_handlers.py:53-80 | the queue becomes the old queue followed by the decoded items, in order |
| `EventHandling.EventHandlers.FinishedTwice` | src/agent/event_handlers.py:38-51 | a second finish for the same id spawns nothing, and the id then stays processed and out of pending |

## Left out

- Concurrency. The decode task spawned by `loading_finished_handler` runs to
  completion inside the handler. No handler runs while the watch loop runs, so
  the loop's queue changes only by its own pops. The asyncio interleavings are
  not modelled. Neither is the blocking `queue.get()` that a producer can
  satisfy mid-wait.
- Decoding. Base64, UTF-8 and `json.loads` are one partial function-typed
  parameter of `LoadingFinished`/`HandleResponse`, so the decoder's own
  behaviour is not modelled.
- Browser transport. These are inputs to the model:
  - the fetched body;
  - the URL the tab lands on;
  - whether a cookie banner is shown;
  - what each article lookup finds;
  - the playback-position script's answer.

  The CDP messages behind them are not modelled. Nor are `scroll_into_view`,
  `tab.browser.update_targets()` and the second navigation's landing URL.
- `auth_challenge_handler`, `req_paused`, `add_proxy_user_authorization` and
  handler registration (src/agent/event_handlers.py:15-33, 83-103). These are
  pass-throughs to CDP with no state of their own.
- File I/O. `os.makedirs`, the parquet writer and `json.dump` are not modelled:
  a store is an entry in `storedSessions`. Loading is modelled from the parsed
  ledger document, which the constructor takes as an input. The ledger is read
  from the scenario directory (`ledgerSource`) but written to the storage path
  (`StoredSession.ledgerPath`), and `LedgerPathsDiffer` shows these are two
  files under the default storage path. No round trip between sessions is
  claimed; `LedgerListRoundTrip` covers one file written and read back.
- Logging. All log lines are left out.
- `Scraper.ScraperContext.GetNextVideo`: how long a wait really lasts is not
  bounded above. The model records the wait asked for (`Clock.waits`) and that
  at least that much time passed; the event loop's scheduling delay is not
  modelled.
- `Configuration.Config.constructor`: requires LOOP_DURATION to parse as an
  integer. The source raises ValueError there and no configuration exists; that
  error path is `GetEnvAsInt`'s `Err(ValueError)`.
- The default log file name embeds `time.time()` in Python's float formatting.
  It is kept as the clock reading and the directory (`TimestampedLog`), not as
  a string. The test's expectation of `app.log` (tests/main.py:57) disagrees
  with the code and follows neither.
- Numbers:
  - Python's int and float are not told apart, and floats are exact reals, so
    rounding is not modelled.
  - `int()` and `float()` accept only plain decimal forms. Whitespace,
    underscores, exponents, `inf` and `nan` are not modelled.
  - `True == 1` and similar cross-type equalities are not modelled in ledger
    membership: ids are compared as JSON values.
- `Numbers.ParseFloat`: a string that Python's `float()` accepts in a form
  outside plain signed decimals is read as a conversion failure, and the
  duration falls back to 0.0.
- `dismiss_app_banner` (src/agent/utils.py:10-19), src/agent/login_actions.py
  and src/main.py: browser start-up and scripted UI clicks, outside the
  modelled core.
- An exception raised before the loop starts (navigation, cookie banner) is a
  transport failure and is not modelled, nor is the store that still follows it.

## Findings

| source | as written | input that shows it | evidently intended | confidence | as-written member | corrected member |
|---|---|---|---|---|---|---|
| src/agent/utils.py:190 | each touch move is at `start_y - delta_y * i`, with `delta_y = (end_y - start_y) / steps`, so the moves head away from `end_y` and the touch end then jumps back to `end_y` | start_y = 100, end_y = 500, steps = 5: moves at 20, -60, -140, -220, -300, then the end at 500 | moves at `start_y + delta_y * i`, each a step closer to `end_y`, the last one at `end_y` | not executed | `Utils.SwipeDownOvershoots` | `Utils.SwipeDownIntendedIsContinuous` |
