/**
 * Talon's gaze tracker front end: a bounded history of gaze frames and the
 * lookups over it, the frame nearest a timestamp and the box the gaze covered
 * during a time range.
 */
module GazeHistory {
  import opened Wrappers
  import opened Geometry

  /** The history keeps about ten seconds of frames of a Tobii 5. */
  const MaxFrames: nat := 1000

  /** How far, in seconds, a frame's timestamp may lie from the one asked for. */
  const Tolerance: real := 0.1

  /** One tracker frame: the normalised gaze position and its timestamp. */
  datatype Frame = Frame(gaze: Point, ts: real)

  /** `BoundingBox`: an axis-aligned box. */
  datatype BoundingBox = BoundingBox(left: real, right: real, top: real, bottom: real)

  function Abs(v: real): (r: real)
    ensures r >= 0.0 && (r == v || r == -v)
  {
    if v < 0.0 then -v else v
  }

  /**
   * Appending to a `deque(maxlen=maxLen)`: the result is the newest `maxLen`
   * elements of the queue followed by `x`, so the oldest element is dropped
   * exactly when the queue was full.
   */
  function BoundedAppend<T>(q: seq<T>, x: T, maxLen: nat): (r: seq<T>)
    requires 0 < maxLen && |q| <= maxLen
    ensures |r| == if |q| < maxLen then |q| + 1 else maxLen
    ensures r == (q + [x])[|q| + 1 - |r|..]
    ensures r[|r| - 1] == x
  {
    if |q| < maxLen then q + [x] else q[1..] + [x]
  }

  ghost predicate Sorted(s: seq<real>)
  {
    forall i, j :: 0 <= i <= j < |s| ==> s[i] <= s[j]
  }

  /** Appending a timestamp no older than the newest one keeps a bounded history sorted. */
  lemma BoundedAppendKeepsSorted(ts: seq<real>, t: real, maxLen: nat)
    requires 0 < maxLen && |ts| <= maxLen
    requires Sorted(ts) && (ts == [] || ts[|ts| - 1] <= t)
    ensures Sorted(BoundedAppend(ts, t, maxLen))
  {
    var full := ts + [t];
    assert Sorted(full) by {
      forall i, j | 0 <= i <= j < |full| ensures full[i] <= full[j] {
        if j == |ts| && i < j {
          assert full[i] == ts[i] <= ts[|ts| - 1];
        }
      }
    }
    var r := BoundedAppend(ts, t, maxLen);
    var d := |ts| + 1 - |r|;
    assert r == full[d..];
  }

  /** How many elements of `a` are smaller than `x`; for sorted `a`, this is where `bisect_left` inserts `x`. */
  function CountBelow(a: seq<real>, x: real): (n: nat)
    ensures n <= |a|
  {
    if a == [] then 0 else (if a[0] < x then 1 else 0) + CountBelow(a[1..], x)
  }

  /** If every element before `i` is below `x` and none from `i` on is, exactly `i` elements are below `x`. */
  lemma {:induction false} CountBelowAtSplit(a: seq<real>, x: real, i: nat)
    requires i <= |a|
    requires forall j :: 0 <= j < i ==> a[j] < x
    requires forall j :: i <= j < |a| ==> x <= a[j]
    ensures CountBelow(a, x) == i
  {
    if a != [] {
      CountBelowAtSplit(a[1..], x, if i == 0 then 0 else i - 1);
    }
  }

  /**
   * `bisect.bisect_left`: binary search for the first position whose element is
   * not below `x`. The index is always a valid insertion point; on sorted input
   * everything before it is below `x` and nothing after it is.
   */
  method BisectLeft(a: seq<real>, x: real) returns (i: nat)
    ensures i <= |a|
    ensures Sorted(a) ==> i == CountBelow(a, x)
    ensures Sorted(a) ==> forall j :: 0 <= j < i ==> a[j] < x
    ensures Sorted(a) ==> forall j :: i <= j < |a| ==> x <= a[j]
  {
    var lo, hi := 0, |a|;
    while lo < hi
      invariant 0 <= lo <= hi <= |a|
      invariant Sorted(a) ==> forall j :: 0 <= j < lo ==> a[j] < x
      invariant Sorted(a) ==> forall j :: hi <= j < |a| ==> x <= a[j]
    {
      var mid := (lo + hi) / 2;
      if a[mid] < x {
        lo := mid + 1;
      } else {
        hi := mid;
      }
    }
    i := lo;
    if Sorted(a) {
      CountBelowAtSplit(a, x, i);
    }
  }

  /** The clamped `bisect_left` index into a non-empty sorted history. */
  function ClampedBisect(ts: seq<real>, t: real): (k: nat)
    requires ts != []
    ensures k < |ts|
  {
    var i := CountBelow(ts, t);
    if i == |ts| then i - 1 else i
  }

  /**
   * The frame `get_gaze_point_at_timestamp` picks from a non-empty sorted
   * history: the clamped `bisect_left` index, or the newest frame when that
   * index's timestamp lies more than the tolerance from `t`.
   */
  function FrameAt(ts: seq<real>, t: real): (k: nat)
    requires ts != []
    ensures k < |ts|
    ensures k == |ts| - 1 || Abs(ts[k] - t) <= Tolerance
  {
    var i := ClampedBisect(ts, t);
    if Abs(ts[i] - t) > Tolerance then |ts| - 1 else i
  }

  /** On sorted input the elements below `x` are exactly the first `CountBelow(a, x)` ones. */
  lemma {:induction false} CountBelowSorted(a: seq<real>, x: real)
    requires Sorted(a)
    ensures forall j :: 0 <= j < CountBelow(a, x) ==> a[j] < x
    ensures forall j :: CountBelow(a, x) <= j < |a| ==> x <= a[j]
  {
    if a != [] {
      var tail := a[1..];
      assert Sorted(tail) by {
        forall i, j | 0 <= i <= j < |tail| ensures tail[i] <= tail[j] {
          assert tail[i] == a[i + 1] && tail[j] == a[j + 1];
        }
      }
      CountBelowSorted(tail, x);
      var c := CountBelow(tail, x);
      if a[0] < x {
        forall j | 0 < j < |a| ensures (j < 1 + c ==> a[j] < x) && (1 + c <= j ==> x <= a[j]) {
          assert a[j] == tail[j - 1];
        }
      } else {
        forall j | 0 <= j < |a| ensures x <= a[j] {
          assert a[0] <= a[j];
        }
      }
    }
  }

  /** A sorted history picks a frame recorded exactly at `t` whenever it holds one. */
  lemma FrameAtExactTimestamp(ts: seq<real>, t: real, j: nat)
    requires Sorted(ts) && j < |ts| && ts[j] == t
    ensures ts[FrameAt(ts, t)] == t
  {
    CountBelowSorted(ts, t);
    var i := CountBelow(ts, t);
    assert i <= j;
    assert ts[i] <= ts[j];
    assert ClampedBisect(ts, t) == i;
  }

  /** Whether a frame lies in the time range widened by the tolerance on both sides. */
  predicate InWindow(f: Frame, start: real, end: real)
  {
    !(f.ts < start - Tolerance || f.ts > end + Tolerance)
  }

  /** The gaze positions of the frames of `fs` that lie in the widened time range, in order. */
  function WindowGazes(fs: seq<Frame>, start: real, end: real): (ps: seq<Point>)
    ensures |ps| <= |fs|
  {
    if fs == [] then []
    else
      var last := fs[|fs| - 1];
      var init := WindowGazes(fs[..|fs| - 1], start, end);
      init + (if InWindow(last, start, end) then [last.gaze] else [])
  }

  /** Exactly the gazes of the frames inside the widened time range contribute. */
  lemma {:induction false} WindowGazesMembers(fs: seq<Frame>, start: real, end: real)
    ensures forall k :: 0 <= k < |fs| && InWindow(fs[k], start, end) ==> fs[k].gaze in WindowGazes(fs, start, end)
    ensures forall p :: p in WindowGazes(fs, start, end) ==>
      exists k :: 0 <= k < |fs| && InWindow(fs[k], start, end) && fs[k].gaze == p
  {
    if fs != [] {
      var init := fs[..|fs| - 1];
      WindowGazesMembers(init, start, end);
      forall p | p in WindowGazes(fs, start, end)
        ensures exists k :: 0 <= k < |fs| && InWindow(fs[k], start, end) && fs[k].gaze == p
      {
        if p in WindowGazes(init, start, end) {
          var k :| 0 <= k < |init| && InWindow(init[k], start, end) && init[k].gaze == p;
          assert fs[k] == init[k];
        } else {
          assert fs[|fs| - 1].gaze == p;
        }
      }
      forall k | 0 <= k < |fs| && InWindow(fs[k], start, end)
        ensures fs[k].gaze in WindowGazes(fs, start, end)
      {
        if k < |init| {
          assert fs[k] == init[k];
        }
      }
    }
  }

  /** The frames `range(lo, hi + 1)` visits. */
  function Scanned(fs: seq<Frame>, lo: nat, hi: nat): (scanned: seq<Frame>)
    requires lo <= |fs| && hi < |fs|
  {
    if lo <= hi then fs[lo..hi + 1] else []
  }

  predicate Contains(b: BoundingBox, p: Point)
  {
    b.left <= p.x <= b.right && b.top <= p.y <= b.bottom
  }

  /** The box grown to take in one more point; with no box yet, the point alone. */
  function Include(b: Option<BoundingBox>, p: Point): (grown: BoundingBox)
  {
    match b
    case None => BoundingBox(p.x, p.x, p.y, p.y)
    case Some(b) => BoundingBox(Min(p.x, b.left), Max(p.x, b.right), Min(p.y, b.top), Max(p.y, b.bottom))
  }

  /**
   * The min/max accumulation of the bounds over a sequence of points: none for
   * no points, and otherwise an ordered box that holds every point.
   */
  function Hull(ps: seq<Point>): (r: Option<BoundingBox>)
    ensures r.None? <==> ps == []
    ensures r.Some? ==> r.value.left <= r.value.right && r.value.top <= r.value.bottom
    ensures r.Some? ==> forall k :: 0 <= k < |ps| ==> Contains(r.value, ps[k])
  {
    if ps == [] then None else Some(Include(Hull(ps[..|ps| - 1]), ps[|ps| - 1]))
  }

  /** Every edge of the hull is attained by one of the points, so the box is the smallest that holds them. */
  lemma {:induction false} HullIsTight(ps: seq<Point>)
    requires ps != []
    ensures exists k :: 0 <= k < |ps| && ps[k].x == Hull(ps).value.left
    ensures exists k :: 0 <= k < |ps| && ps[k].x == Hull(ps).value.right
    ensures exists k :: 0 <= k < |ps| && ps[k].y == Hull(ps).value.top
    ensures exists k :: 0 <= k < |ps| && ps[k].y == Hull(ps).value.bottom
  {
    var n := |ps| - 1;
    var init := ps[..n];
    if init != [] {
      HullIsTight(init);
      var b := Hull(init).value;
      var kl :| 0 <= kl < n && init[kl].x == b.left;
      var kr :| 0 <= kr < n && init[kr].x == b.right;
      var kt :| 0 <= kt < n && init[kt].y == b.top;
      var kb :| 0 <= kb < n && init[kb].y == b.bottom;
      assert ps[kl] == init[kl] && ps[kr] == init[kr] && ps[kt] == init[kt] && ps[kb] == init[kb];
    }
    assert Hull(ps).value == Include(Hull(init), ps[n]);
  }

  /** A box in gaze coordinates converted corner by corner to pixels. */
  function ToPixels(b: BoundingBox, toPixels: Point -> Point): (pixels: BoundingBox)
  {
    var topLeft := toPixels(Point(b.left, b.top));
    var bottomRight := toPixels(Point(b.right, b.bottom));
    BoundingBox(topLeft.x, bottomRight.x, topLeft.y, bottomRight.y)
  }

  /** An optional box in gaze coordinates converted to pixels. */
  function PixelBox(b: Option<BoundingBox>, toPixels: Point -> Point): (r: Option<BoundingBox>)
  {
    match b
    case None => None
    case Some(b) => Some(ToPixels(b, toPixels))
  }

  // ---------------------------------------------------------------------------
  // The bounds accumulation as the source writes it, with Python truthiness:
  // an accumulator that holds 0.0 counts as unset.

  /** Python truthiness of an optional number: neither `None` nor zero. */
  predicate Truthy(v: Option<real>)
  {
    v.Some? && v.value != 0.0
  }

  datatype Accumulator = Accumulator(left: Option<real>, right: Option<real>, top: Option<real>, bottom: Option<real>)

  /** One iteration of the source's loop body, `min(v, acc) if acc else v` on each side. */
  function TruthyStep(acc: Accumulator, p: Point): (next: Accumulator)
    ensures next.left.Some? && next.right.Some? && next.top.Some? && next.bottom.Some?
    ensures next.left.value <= p.x <= next.right.value && next.top.value <= p.y <= next.bottom.value
  {
    Accumulator(
      Some(if Truthy(acc.left) then Min(p.x, acc.left.value) else p.x),
      Some(if Truthy(acc.right) then Max(p.x, acc.right.value) else p.x),
      Some(if Truthy(acc.top) then Min(p.y, acc.top.value) else p.y),
      Some(if Truthy(acc.bottom) then Max(p.y, acc.bottom.value) else p.y))
  }

  /**
   * The source's accumulation over a sequence of points. Even with truthiness,
   * once a point has been seen every side is set and left <= right, top <= bottom.
   */
  function TruthyFold(ps: seq<Point>): (acc: Accumulator)
    ensures ps == [] ==> acc == Accumulator(None, None, None, None)
    ensures ps != [] ==>
      && acc.left.Some? && acc.right.Some? && acc.top.Some? && acc.bottom.Some?
      && acc.left.value <= acc.right.value && acc.top.value <= acc.bottom.value
  {
    if ps == [] then Accumulator(None, None, None, None)
    else TruthyStep(TruthyFold(ps[..|ps| - 1]), ps[|ps| - 1])
  }

  /** The bounds as the source computes them, before the pixel conversion: `None` when `left` is falsy. */
  function AsWrittenBounds(ps: seq<Point>): (r: Option<BoundingBox>)
    ensures r.Some? ==> ps != [] && r.value.left <= r.value.right && r.value.top <= r.value.bottom
  {
    var acc := TruthyFold(ps);
    if !Truthy(acc.left) then None
    else Some(BoundingBox(acc.left.value, acc.right.value, acc.top.value, acc.bottom.value))
  }

  /**
   * The truthiness tests go wrong at a gaze x of 0.0 (the left screen edge):
   * a single frame there yields no bounds at all, and a frame there followed by
   * one further right loses the left edge.
   */
  lemma AsWrittenLosesLeftEdge()
    ensures AsWrittenBounds([Point(0.0, 0.5)]) == None
    ensures Hull([Point(0.0, 0.5)]) == Some(BoundingBox(0.0, 0.0, 0.5, 0.5))
    ensures AsWrittenBounds([Point(0.0, 0.5), Point(0.5, 0.5)]) == Some(BoundingBox(0.5, 0.5, 0.5, 0.5))
    ensures Hull([Point(0.0, 0.5), Point(0.5, 0.5)]) == Some(BoundingBox(0.0, 0.5, 0.5, 0.5))
  {
    var one := [Point(0.0, 0.5)];
    var two := [Point(0.0, 0.5), Point(0.5, 0.5)];
    assert one[..0] == [] && two[..1] == one;
  }

  /** Whether no point lies on the left or top screen edge, where a coordinate is 0.0. */
  predicate NoZeroCoordinate(ps: seq<Point>)
  {
    forall k :: 0 <= k < |ps| ==> ps[k].x != 0.0 && ps[k].y != 0.0
  }

  /**
   * Away from the zero coordinates the truthiness tests never fire wrongly: the
   * source's accumulator holds exactly the hull's edges, none of them zero.
   */
  lemma {:induction false} TruthyFoldMatchesHull(ps: seq<Point>)
    requires ps != [] && NoZeroCoordinate(ps)
    ensures var b := Hull(ps).value;
      TruthyFold(ps) == Accumulator(Some(b.left), Some(b.right), Some(b.top), Some(b.bottom))
    ensures var b := Hull(ps).value;
      b.left != 0.0 && b.right != 0.0 && b.top != 0.0 && b.bottom != 0.0
  {
    var init := ps[..|ps| - 1];
    if init != [] {
      assert NoZeroCoordinate(init) by {
        forall k | 0 <= k < |init| ensures init[k].x != 0.0 && init[k].y != 0.0 {
          assert init[k] == ps[k];
        }
      }
      TruthyFoldMatchesHull(init);
    }
  }

  /** When no scanned gaze has a zero coordinate, the bounds as written are the hull. */
  lemma AsWrittenMatchesHull(ps: seq<Point>)
    requires NoZeroCoordinate(ps)
    ensures AsWrittenBounds(ps) == Hull(ps)
  {
    if ps != [] {
      TruthyFoldMatchesHull(ps);
    }
  }

  /**
   * The bounds `get_gaze_bounds_during_time_range` reports for the scanned
   * frames, in pixels, with the truthiness tests as written. Away from the zero
   * coordinates they are the pixel hull of the in-range gazes.
   */
  function GazeBounds(fs: seq<Frame>, start: real, end: real, toPixels: Point -> Point): (r: Option<BoundingBox>)
    ensures r.Some? ==> WindowGazes(fs, start, end) != []
    ensures NoZeroCoordinate(WindowGazes(fs, start, end)) ==>
      r == PixelBox(Hull(WindowGazes(fs, start, end)), toPixels)
  {
    var ps := WindowGazes(fs, start, end);
    if NoZeroCoordinate(ps) then
      AsWrittenMatchesHull(ps);
      PixelBox(AsWrittenBounds(ps), toPixels)
    else
      PixelBox(AsWrittenBounds(ps), toPixels)
  }

  // ---------------------------------------------------------------------------

  /** The timestamp queue of `frames`. */
  ghost predicate InStep(fs: seq<Frame>, ts: seq<real>)
  {
    |fs| == |ts| && forall k :: 0 <= k < |fs| ==> ts[k] == fs[k].ts
  }

  /** Appending a frame and its timestamp to the two bounded queues keeps them in step. */
  lemma TimestampsInStep(fs: seq<Frame>, ts: seq<real>, f: Frame)
    requires InStep(fs, ts) && |fs| <= MaxFrames
    ensures InStep(BoundedAppend(fs, f, MaxFrames), BoundedAppend(ts, f.ts, MaxFrames))
  {
    if |fs| == MaxFrames {
      assert InStep(fs[1..], ts[1..]);
    }
    assert InStep(BoundedAppend(fs, f, MaxFrames)[..|BoundedAppend(fs, f, MaxFrames)| - 1],
                  BoundedAppend(ts, f.ts, MaxFrames)[..|BoundedAppend(ts, f.ts, MaxFrames)| - 1]);
  }

  /** Taking in one more point runs the source's loop body once more. */
  lemma TruthyFoldSnoc(ps: seq<Point>, p: Point)
    ensures TruthyFold(ps + [p]) == TruthyStep(TruthyFold(ps), p)
  {
    assert (ps + [p])[..|ps|] == ps;
  }

  /** Scanning one more frame extends the window's gazes by that frame's gaze if it lies in the range. */
  lemma WindowGazesSnoc(fs: seq<Frame>, f: Frame, start: real, end: real)
    ensures WindowGazes(fs + [f], start, end) ==
            WindowGazes(fs, start, end) + (if InWindow(f, start, end) then [f.gaze] else [])
  {
    assert (fs + [f])[..|fs|] == fs;
  }

  /** Scanning frame `i` runs the loop body on its gaze exactly when it lies in the range. */
  lemma ScanStep(fs: seq<Frame>, lo: nat, i: nat, start: real, end: real)
    requires lo <= i < |fs|
    ensures TruthyFold(WindowGazes(fs[lo..i + 1], start, end)) ==
      if InWindow(fs[i], start, end)
      then TruthyStep(TruthyFold(WindowGazes(fs[lo..i], start, end)), fs[i].gaze)
      else TruthyFold(WindowGazes(fs[lo..i], start, end))
  {
    assert fs[lo..i + 1] == fs[lo..i] + [fs[i]];
    WindowGazesSnoc(fs[lo..i], fs[i], start, end);
    var before := WindowGazes(fs[lo..i], start, end);
    if InWindow(fs[i], start, end) {
      TruthyFoldSnoc(before, fs[i].gaze);
    } else {
      assert before + [] == before;
    }
  }

  /** `TalonEyeTracker`: receives gaze frames from Talon and answers queries about the gaze history. */
  class TalonEyeTracker {
    /** The latest gaze position (`_gaze`); `None` until the first frame. */
    var gaze: Option<Point>
    /** The frame history (`_queue`), oldest first. */
    var frames: seq<Frame>
    /** The timestamps of the frames (`_ts_queue`), kept in step with `frames`. */
    var timestamps: seq<real>
    /** The mouse moves issued so far, oldest first. */
    var mouse: seq<MouseEvent>
    const isConnected: bool

    ghost predicate Valid()
      reads this
    {
      && |frames| <= MaxFrames
      && InStep(frames, timestamps)
      && (frames == [] <==> gaze.None?)
      && (frames != [] ==> gaze == Some(frames[|frames| - 1].gaze))
    }

    constructor ()
      ensures Valid()
      ensures gaze == None && frames == [] && timestamps == [] && mouse == []
      ensures isConnected
    {
      gaze := None;
      frames := [];
      timestamps := [];
      mouse := [];
      isConnected := true;
    }

    /** `_on_gaze`: remember the frame as the latest gaze and append it to both bounded queues. */
    method OnGaze(frame: Frame)
      requires Valid()
      modifies this
      ensures Valid()
      ensures gaze == Some(frame.gaze)
      ensures frames == BoundedAppend(old(frames), frame, MaxFrames)
      ensures timestamps == BoundedAppend(old(timestamps), frame.ts, MaxFrames)
      ensures mouse == old(mouse)
    {
      TimestampsInStep(frames, timestamps, frame);
      var fs := BoundedAppend(frames, frame, MaxFrames);
      assert fs[|fs| - 1] == frame;
      gaze := Some(frame.gaze);
      frames := fs;
      timestamps := BoundedAppend(timestamps, frame.ts, MaxFrames);
    }

    /** `has_gaze_point`: whether any gaze frame has arrived. */
    predicate HasGazePoint()
      reads this
      ensures Valid() ==> (HasGazePoint() <==> frames != [])
    {
      gaze.Some?
    }

    /** `get_gaze_point_or_default`: the newest frame's gaze in pixels, or (0, 0) before any frame. */
    function GetGazePointOrDefault(toPixels: Point -> Point): (p: Point)
      requires Valid()
      reads this
      ensures frames == [] ==> p == Point(0.0, 0.0)
      ensures frames != [] ==> p == toPixels(frames[|frames| - 1].gaze)
    {
      if gaze.None? then Point(0.0, 0.0) else toPixels(gaze.value)
    }

    /** The clamped `bisect_left` index of `t` into the timestamps: always a valid frame index. */
    method ClampedIndex(t: real) returns (k: nat)
      requires Valid() && frames != []
      ensures k < |frames|
      ensures Sorted(timestamps) ==> k == ClampedBisect(timestamps, t)
    {
      k := BisectLeft(timestamps, t);
      if k == |frames| {
        k := k - 1;
      }
    }

    /**
     * `get_gaze_point_at_timestamp`: (0, 0) with no history; otherwise the gaze,
     * in pixels, of the frame at the clamped `bisect_left` index, or of the
     * newest frame when that one's timestamp lies more than the tolerance from `t`.
     */
    method GetGazePointAtTimestamp(t: real, toPixels: Point -> Point) returns (p: Point)
      requires Valid()
      ensures frames == [] ==> p == Point(0.0, 0.0)
      ensures frames != [] ==>
        (exists k :: 0 <= k < |frames| && p == toPixels(frames[k].gaze) &&
                     (k == |frames| - 1 || Abs(frames[k].ts - t) <= Tolerance))
      ensures frames != [] && Sorted(timestamps) ==> p == toPixels(frames[FrameAt(timestamps, t)].gaze)
    {
      if frames == [] {
        return Point(0.0, 0.0);
      }
      var k := ClampedIndex(t);
      if Abs(frames[k].ts - t) > Tolerance {
        k := |frames| - 1;
      }
      p := toPixels(frames[k].gaze);
    }

    /**
     * `get_gaze_bounds_during_time_range`: the box, in pixels, that the gaze of
     * the frames between the two clamped `bisect_left` indices and within the
     * widened time range covered, with the source's truthiness tests; `None`
     * when the accumulated left edge is unset or 0.0.
     */
    method GetGazeBoundsDuringTimeRange(start: real, end: real, toPixels: Point -> Point)
      returns (r: Option<BoundingBox>)
      requires Valid()
      ensures frames == [] ==> r == None
      ensures frames != [] ==>
        (exists lo, hi :: 0 <= lo < |frames| && 0 <= hi < |frames| &&
                          r == GazeBounds(Scanned(frames, lo, hi), start, end, toPixels))
      ensures frames != [] && Sorted(timestamps) ==>
        r == GazeBounds(Scanned(frames, ClampedBisect(timestamps, start), ClampedBisect(timestamps, end)), start, end, toPixels)
    {
      if frames == [] {
        return None;
      }
      var lo := ClampedIndex(start);
      var hi := ClampedIndex(end);
      var acc := ScanBounds(lo, hi, start, end);
      if !Truthy(acc.left) {
        r := None;
      } else {
        r := Some(ToPixels(BoundingBox(acc.left.value, acc.right.value, acc.top.value, acc.bottom.value), toPixels));
      }
      assert r == GazeBounds(Scanned(frames, lo, hi), start, end, toPixels);
    }

    /** The loop of `get_gaze_bounds_during_time_range`: the source's accumulation over the in-range gazes of frames `lo` to `hi`. */
    method ScanBounds(lo: nat, hi: nat, start: real, end: real) returns (acc: Accumulator)
      requires lo < |frames| && hi < |frames|
      ensures acc == TruthyFold(WindowGazes(Scanned(frames, lo, hi), start, end))
    {
      var fs := frames;
      acc := Accumulator(None, None, None, None);
      var i := lo;
      while i < hi + 1
        invariant lo <= i <= if lo <= hi then hi + 1 else lo
        invariant acc == TruthyFold(WindowGazes(fs[lo..i], start, end))
      {
        var frame := fs[i];
        ScanStep(fs, lo, i, start, end);
        if InWindow(frame, start, end) {
          acc := TruthyStep(acc, frame.gaze);
        }
        i := i + 1;
      }
      assert fs[lo..i] == Scanned(fs, lo, hi);
    }

    /** `move_to_gaze_point`: move the mouse to the current gaze point plus an offset. */
    method MoveToGazePoint(offset: Point, toPixels: Point -> Point)
      requires Valid()
      modifies this
      ensures Valid()
      ensures mouse == old(mouse) +
        [Move(Point(GetGazePointOrDefault(toPixels).x + offset.x, GetGazePointOrDefault(toPixels).y + offset.y))]
      ensures gaze == old(gaze) && frames == old(frames) && timestamps == old(timestamps)
    {
      var g := GetGazePointOrDefault(toPixels);
      mouse := mouse + [Move(Point(g.x + offset.x, g.y + offset.y))];
    }
  }
}
