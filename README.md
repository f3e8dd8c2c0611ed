# gaze-ocr: a Dafny model of the gaze/OCR coordination layer

This project models the core of `gaze-ocr`, a library that lets a user put the
mouse on a word, or select a range of words, by looking at the screen and
saying the word: an OCR pass is run near the current gaze point in the
background, the word is looked up in its result, and the mouse is moved,
pressed and released there.

Three pieces are modelled, one module each, plus small shared modules:

- `GazeOcr` (`gaze_ocr/_gaze_ocr.py`): the `Controller` class. Its one
  background-request slot (`_future`) is the field `future`, holding the gaze
  point of the latest request and whether it has completed; submitted
  requests, cancelled requests and mouse actions are recorded in the fields
  `requests`, `cancelled` and `mouse`.
  `select_text`'s decision procedure (phrase splitting, early abort, the
  half-radius re-scan test, the end word defaulting to the start word, and the
  press / move / release sequence) is stated in full in `SelectText`'s contract.
- `GazeHistory` (`gaze_ocr/talon.py`, and the `TalonEyeTracker` copy in
  `gaze_ocr/eye_tracking.py`, whose queue, lookup and `move_to_gaze_point` code
  is the same but which has no bounds query and empty `connect` /
  `disconnect`): the bounded frame and timestamp queues, `bisect_left` as a
  binary-search method, the clamped index with its 0.1 s fallback to the
  newest frame, and the bounding-box loop with its truthiness tests.
- `EyeTracking` (`gaze_ocr/eye_tracking.py`): the Tobii `EyeTracker` class
  (connect / disconnect lifecycle, state handlers, gaze point with the
  window-centre fallback, clamped mouse move). The class-level `_instance`
  singleton is the `EyeTrackerRegistry` object.
- `Geometry` (points, mouse events, `_squared`, `_distance_squared`, Python's
  `int()` truncation), `Words` (Python's `str.split()`), `Wrappers` (`Option`,
  `Result`).

Modelling choices:

- Coordinates and timestamps are `real`; the 0.1 s tolerance is exactly 0.1.
- The thread pool is a sequential one-slot mailbox. Whether the background
  worker has finished the previous request by the time a new one is made is the
  parameter `finishedMeanwhile` of `StartReadingNearby`. `LatestScreenContents`
  blocks until the request is done, so it marks the request done.
- The OCR reader is the datatype `OcrReader`: its `radius` and its scan
  `readNearby`, a function from a gaze point to `ScreenContents`. A
  `ScreenContents` carries the gaze point that anchored the scan and the OCR
  library's `find_nearest_word_coordinates` as a function field. Neither body
  is part of this model.
- The controller's eye tracker is a parameter: `SelectText` receives the two
  gaze points the code reads, `gaze` for the distance test and `rescanGaze`
  for the new request that `start_reading_nearby` submits; `StartReadingNearby`
  receives its gaze point.
- Talon's `_gaze_to_pixels` (which reads the main screen's rectangle) is the
  function parameter `toPixels`. The Tobii window system's monitor size and
  foreground-window centre are parameters.
- The exceptions the code can raise are modelled as results:
  `latest_screen_contents` before any request raises `RuntimeError`
  (`NotStarted`). `select_text` with a start word that holds a space but no
  word raises `IndexError` on `words[0]` (`EmptyPhrase`).
  `_handle_screen_bounds` with a zero width or height raises
  `ZeroDivisionError` (`DivisionByZero`). In each case the state is left as it
  was.
- `select_text` only drags from the start word to the end word; the code has
  no character offsets, nearest-side heuristic, whitespace inclusion or
  direction check, and neither has the model.

## Model

| member | source | states |
|---|---|---|
| `Geometry.Squared` | gaze_ocr/_gaze_ocr.py:132-133 | a square is never negative and is zero exactly for zero |
| `Geometry.DistanceSquared` | gaze_ocr/_gaze_ocr.py:136-138 | the squared distance is never negative and is zero exactly for identical points |
| `Geometry.DistanceSquaredSymmetric` | gaze_ocr/_gaze_ocr.py:136-138 | the squared distance does not depend on argument order |
| `Geometry.Trunc` | gaze_ocr/eye_tracking.py:200-201 | `int()` truncates toward zero: the result lies within one of the input, on the zero side |
| `Words.Split` | gaze_ocr/_gaze_ocr.py:69 | `split()` yields only non-empty, whitespace-free words, and yields none exactly when the text is all whitespace |
| `Words.SplitKeepsLetters` | gaze_ocr/_gaze_ocr.py:69 | the words, concatenated, are exactly the non-whitespace characters of the text |
| `Words.SplitLeadingWord` | gaze_ocr/_gaze_ocr.py:69-70 | a non-empty whitespace-free word followed by whitespace (or nothing) is the first word `split()` yields, so `words[0]` is the first maximal run |
| `Words.SplitTwoWords` | gaze_ocr/_gaze_ocr.py:68-71 | `"hello world"` splits into `"hello"` and `"world"` |
| `GazeOcr.SplitSelection` | gaze_ocr/_gaze_ocr.py:67-71 | a start word holding a space with a falsy end word becomes the first word, and the last word becomes the end word (both non-empty, whitespace-free); an all-whitespace phrase raises; otherwise both words are kept |
| `GazeOcr.SplitSelectionOfPhrase` | gaze_ocr/_gaze_ocr.py:68-71 | `select_text("hello world")` starts at "hello" and ends at "world" |
| `GazeOcr.SelectionEnd` | gaze_ocr/_gaze_ocr.py:67-82 | the selection ends at the last word of a split phrase (non-empty, whitespace-free), at the end word when one is given, and at the start word itself when neither applies |
| `GazeOcr.SingleWordSelection` | gaze_ocr/_gaze_ocr.py:67-82 | a start word without a space and without an end word is kept and the selection ends at that same word |
| `GazeOcr.GazeMoved` | gaze_ocr/_gaze_ocr.py:78-79 | the re-scan test (squared distance above (radius/2)²) only fires for two different points |
| `GazeOcr.StillGazeNeverMoves` | gaze_ocr/_gaze_ocr.py:76-80 | a gaze that is where the last scan was anchored never triggers a re-scan |
| `GazeOcr.GazeMovedSymmetric` | gaze_ocr/_gaze_ocr.py:78-79 | the re-scan test does not depend on which gaze point is current |
| `GazeOcr.Controller.constructor` | gaze_ocr/_gaze_ocr.py:15-25 | a new controller has no request, has submitted and cancelled nothing and has moved no mouse |
| `GazeOcr.Controller.StartReadingNearby` | gaze_ocr/_gaze_ocr.py:27-33 | one request at the given gaze point is submitted and the slot holds it, pending, whatever it held before; the previous request is cancelled exactly when there was one and it had not completed; the slot keeps holding the latest submitted request |
| `GazeOcr.Controller.LatestScreenContents` | gaze_ocr/_gaze_ocr.py:35-42 | fails with `NotStarted` when no request was ever made; otherwise returns the contents read at the latest request's gaze point and the request is done; submits nothing |
| `GazeOcr.Controller.MoveCursorToWord` | gaze_ocr/_gaze_ocr.py:44-58 | returns true exactly when the word is found, and moves the mouse to it only then; fails with `NotStarted` before any request |
| `GazeOcr.Controller.SelectText` | gaze_ocr/_gaze_ocr.py:60-92 | phrase splitting; when the start word is not found it returns false with no mouse action; it submits exactly one new request, at the second gaze reading, exactly when there is an end word and the squared distance from the first gaze reading exceeds (radius/2)², and submits none otherwise; it returns true exactly when the end word is found, and only then issues press, move to the end, release, in that order; it never cancels a request |
| `GazeHistory.BoundedAppend` | gaze_ocr/talon.py:64-70 | appending to a `deque(maxlen)` keeps at most `maxlen` elements, puts the new element last and drops the oldest exactly when full |
| `GazeHistory.BoundedAppendKeepsSorted` | gaze_ocr/talon.py:69-70 | appending a timestamp no older than the newest keeps the timestamp queue sorted |
| `GazeHistory.CountBelow` | gaze_ocr/talon.py:84 | the number of timestamps below `t` (the `bisect_left` position on sorted input) is at most the queue length |
| `GazeHistory.CountBelowSorted` | gaze_ocr/talon.py:84 | on sorted input exactly the first `CountBelow` elements are below `t` |
| `GazeHistory.BisectLeft` | gaze_ocr/talon.py:84 | the binary search returns a valid insertion point, and on sorted input the one with everything before it below `t` and nothing after it |
| `GazeHistory.ClampedBisect` | gaze_ocr/talon.py:84-86 | the clamped `bisect_left` index is always a valid frame index |
| `GazeHistory.FrameAt` | gaze_ocr/talon.py:84-95 | the chosen frame is a valid index and is the newest frame unless its timestamp lies within 0.1 of the one asked for |
| `GazeHistory.FrameAtExactTimestamp` | gaze_ocr/talon.py:84-95 | a sorted history that holds a frame at exactly `t` returns such a frame |
| `GazeHistory.WindowGazes` | gaze_ocr/talon.py:109-112 | the gazes of the frames inside the widened time range, in order, never more than the frames scanned; `InWindow` is the test of line 111 negated |
| `GazeHistory.WindowGazesMembers` | gaze_ocr/talon.py:109-112 | exactly the gazes of scanned frames with timestamps in [start−0.1, end+0.1] contribute to the bounds |
| `GazeHistory.Hull` | gaze_ocr/talon.py:108-116 | the accumulated bounds are absent exactly for no points, and otherwise satisfy left ≤ right, top ≤ bottom and hold every point |
| `GazeHistory.HullIsTight` | gaze_ocr/talon.py:113-116 | every edge of the accumulated bounds is some point's coordinate, so they are the min and max |
| `GazeHistory.TruthyStep` | gaze_ocr/talon.py:113-116 | one loop iteration as written sets every side and takes in the point: left ≤ x ≤ right and top ≤ y ≤ bottom |
| `GazeHistory.TruthyFold` | gaze_ocr/talon.py:108-116 | the loop as written, truthiness included, sets every side once a frame is seen and keeps left ≤ right and top ≤ bottom |
| `GazeHistory.AsWrittenBounds` | gaze_ocr/talon.py:108-118 | the bounds as written, when present, come from at least one frame and are ordered |
| `GazeHistory.AsWrittenLosesLeftEdge` | gaze_ocr/talon.py:113-118 | the truthiness tests drop a lone frame at gaze x 0.0 and lose a left edge at 0.0 |
| `GazeHistory.TruthyFoldMatchesHull` | gaze_ocr/talon.py:108-116 | when no gaze has a zero coordinate, the accumulator as written holds exactly the edges of the min/max hull, none of them zero |
| `GazeHistory.AsWrittenMatchesHull` | gaze_ocr/talon.py:108-118 | when no gaze has a zero coordinate, the bounds as written are the min/max hull, absent exactly for no in-range gaze |
| `GazeHistory.GazeBounds` | gaze_ocr/talon.py:108-126 | the reported pixel box exists only when some gaze is in range, and away from zero coordinates it is the pixel hull of the in-range gazes |
| `GazeHistory.TalonEyeTracker.constructor` | gaze_ocr/talon.py:58-65 | a new tracker is connected, with no gaze and empty queues |
| `GazeHistory.TalonEyeTracker.OnGaze` | gaze_ocr/talon.py:67-70 | the frame becomes the latest gaze and is appended to both bounded queues, which stay equal in length, at most 1000 long, index by index in step, with the newest frame last |
| `GazeHistory.TalonEyeTracker.HasGazePoint` | gaze_ocr/talon.py:72-73 | true exactly when a frame has arrived (with `Valid`, exactly when the history is non-empty) |
| `GazeHistory.TalonEyeTracker.GetGazePointOrDefault` | gaze_ocr/talon.py:75-78 | (0, 0) before any frame, otherwise the newest frame's gaze in pixels |
| `GazeHistory.TalonEyeTracker.ClampedIndex` | gaze_ocr/eye_tracking.py:47-49 | `bisect_left` clamped to the last index is always a valid frame index, the clamped count on sorted input |
| `GazeHistory.TalonEyeTracker.GetGazePointAtTimestamp` | gaze_ocr/talon.py:80-96 | (0, 0) on empty history; otherwise a frame's gaze in pixels, that frame being the newest one or within 0.1 of the asked time, and on sorted timestamps exactly the frame `FrameAt` picks |
| `GazeHistory.TalonEyeTracker.ScanBounds` | gaze_ocr/talon.py:108-116 | the loop, with its truthiness tests, leaves the accumulator `TruthyFold` gives for the in-range gazes of frames `lo` to `hi` |
| `GazeHistory.TalonEyeTracker.GetGazeBoundsDuringTimeRange` | gaze_ocr/talon.py:98-126 | `None` on empty history; otherwise `GazeBounds` of the frames between two valid indices (on sorted timestamps, the two clamped `bisect_left` indices): `None` when the accumulated left edge is unset or 0.0, and the pixel hull of the in-range gazes whenever none has a zero coordinate |
| `GazeHistory.TalonEyeTracker.MoveToGazePoint` | gaze_ocr/talon.py:135-139 | moves the mouse to the current gaze point plus the offset, changing nothing else |
| `EyeTracking.MoveTarget` | gaze_ocr/eye_tracking.py:198-202 | the target is non-negative, at least the truncated gaze plus offset, and equal to it unless clamped to zero |
| `EyeTracking.MoveTargetOnScreen` | gaze_ocr/eye_tracking.py:200-201 | an on-screen gaze with no offset is moved to its whole-pixel part |
| `EyeTracking.EyeTracker.constructor` | gaze_ocr/eye_tracking.py:91-119 | a new tracker is mock exactly when the libraries are unavailable, is disconnected, holds no host, gaze point or gaze state, and has unit screen scale |
| `EyeTracking.EyeTracker.Connect` | gaze_ocr/eye_tracking.py:121-136 | changes nothing in mock mode; otherwise holds a host and is connected |
| `EyeTracking.EyeTracker.Disconnect` | gaze_ocr/eye_tracking.py:139-147 | changes nothing when disconnected; otherwise clears host, gaze point and gaze state, is disconnected, and the gaze query falls back to the window centre |
| `EyeTracking.EyeTracker.HandleScreenBounds` | gaze_ocr/eye_tracking.py:149-157 | an invalid state changes nothing; a valid one sets the scale to monitor size over bounds and records the monitor size; a zero extent raises and changes nothing |
| `EyeTracking.EyeTracker.HandleGazeState` | gaze_ocr/eye_tracking.py:159-163 | an invalid state changes nothing; a valid one is recorded, and a valid "not tracked" makes the gaze query fall back to the window centre |
| `EyeTracking.EyeTracker.HandleGazePoint` | gaze_ocr/eye_tracking.py:165-166 | the sample becomes the gaze point; on a real tracker in the tracked state the gaze query then answers with the sample scaled by the screen scale, on a mock tracker with the window centre |
| `EyeTracking.EyeTracker.HasGazePoint` | gaze_ocr/eye_tracking.py:177-180 | a mock tracker never has a gaze point; how the handlers change the answer is stated through the gaze query |
| `EyeTracking.EyeTracker.GetGazePointOrDefault` | gaze_ocr/eye_tracking.py:182-187 | a mock tracker answers with the window centre in every state |
| `EyeTracking.TrackedGazeIsScaled` | gaze_ocr/eye_tracking.py:121-187 | after connecting, valid screen bounds, the tracked state and a sample, the gaze query answers with the sample scaled by monitor size over tracker bounds; zero bounds keep the 1:1 scale |
| `EyeTracking.DisconnectForgetsGaze` | gaze_ocr/eye_tracking.py:139-187 | a tracking tracker answers with its sample, and after `disconnect` with the window centre |
| `EyeTracking.EyeTracker.MoveToGazePoint` | gaze_ocr/eye_tracking.py:198-202 | the mouse is moved to the clamped target, never to a negative coordinate |
| `EyeTracking.EyeTrackerRegistry.constructor` | gaze_ocr/eye_tracking.py:80-81 | the class starts with no instance |
| `EyeTracking.EyeTrackerRegistry.GetConnectedInstance` | gaze_ocr/eye_tracking.py:83-89 | builds the tracker only when there is none (unit scale, the given monitor size, no mouse actions) and otherwise returns the same one with its scale, monitor size and mouse history kept; afterwards it is connected and holds a host exactly when not mock, and an already connected tracker is untouched |

## Left out

- Real threading, `ThreadPoolExecutor` and `Future` cancellation semantics: the slot is sequential, and completion of a request is a parameter.
- `time.sleep(0.1)` between move and release in `select_text`: timing is not modelled, only the order of mouse actions.
- `_write_data`: the screenshot and text files written for accuracy analysis (file I/O).
- `move_cursor_to_word_action` and `select_text_action`: Dragonfly `ActionBase` subclasses and Python `%` template substitution.
- The OCR reader's scan and `find_nearest_word_coordinates`: external. They are function fields whose bodies are not modelled.
- `_gaze_to_pixels`: depends on Talon's `ui.main_screen()`. It is the function parameter `toPixels`, so no property of the pixel conversion (such as clamping to the screen) is assumed.
- Tobii DLL loading through pythonnet and the event wiring in `connect`: the model keeps whether a host is held. Which handlers are attached is not modelled, nor the `DisableConnection` call in `disconnect`.
- `_handle_head_pose`, `get_head_rotation_or_default` and `get_head_position_or_default`: head pose with float NaN checks.
- `print_gaze_point`, `type_gaze_point` and `get_monitor_size`: console output, keyboard typing and a plain getter of `monitorSize`.
- The `TalonEyeTracker` copy in `gaze_ocr/eye_tracking.py`: its `connect`, `disconnect`, `print_gaze_point`, `type_gaze_point` and `get_head_rotation_or_default` have empty bodies, and it has no `get_gaze_bounds_during_time_range`. Its queue, lookup and `move_to_gaze_point` code is the same as in `gaze_ocr/talon.py` and is modelled once, by `GazeHistory.TalonEyeTracker`.
- `Mouse`, `Keyboard` and `Windows` in `gaze_ocr/talon.py`, `gaze_ocr/_dragonfly_wrappers.py` and `gaze_ocr/_talon_wrappers.py`: thin input wrappers. Mouse actions are recorded as `MouseEvent`s instead.
- Floating point: all coordinates and timestamps are exact reals, so rounding, NaN and infinity are not modelled.
- The truthiness of Talon's `Point2d` (`_gaze`) and of `EyeTracker` objects: both are taken to be always true. Python tuples of coordinates are always true.
- GazeHistory.TalonEyeTracker.GetGazePointAtTimestamp: this member and `GetGazeBoundsDuringTimeRange` pin the exact frame indices only for sorted timestamps. For unsorted timestamps they state only that valid indices are used, because `bisect_left`'s result there is not characterised.

## Findings

| source | as written | input that shows it | evidently intended | confidence | as-written member | corrected member |
|---|---|---|---|---|---|---|
| gaze_ocr/talon.py:113-118 | `min(x, left) if left else x` and `if not left: return None` test truthiness, so an accumulated coordinate of 0.0 counts as unset | one in-range frame with gaze (0.0, 0.5) gives `None`; frames (0.0, 0.5) then (0.5, 0.5) give left edge 0.5 instead of 0.0 | test for `None`: the bounds are the min and max over all in-range frames, and exist whenever one frame qualifies | medium, not executed | `GazeHistory.AsWrittenLosesLeftEdge` | `GazeHistory.HullIsTight` |

`GazeHistory.TalonEyeTracker.GetGazeBoundsDuringTimeRange` and its loop
`ScanBounds` follow the code as written (`TruthyFold`, `AsWrittenBounds`).
The corrected accumulation is `GazeHistory.Hull`, proved to hold every point
and to be tight. `AsWrittenMatchesHull` proves the two agree whenever no
in-range gaze has a zero coordinate, and the method's contract states that
agreement through `GazeBounds`. Even as written, the accumulated bounds keep
left ≤ right and top ≤ bottom.
