/**
 * The DeepSort wrapper of tracker_deepsort/deepsort.py: it parses a detection
 * matrix into Detections, drops the ones that are too short, hands them to the
 * tracking engine and writes the ids of confirmed, fresh tracks back onto the
 * rows they were matched to.
 *
 * The tracking engine itself (Kalman filter, track lifecycle, appearance
 * metric, assignment) is not part of this model: `Tracker` below is an oracle
 * that may answer anything, and every property here holds whatever it answers.
 * All matrix entries are integers.
 */
module DeepSortModel {
  import opened Common

  /** Column of a row holding the box height, compared with `min_height`. */
  const HeightColumn := 3
  /** A row must hold at least [top, left, width, height, ts, confidence]. */
  const MinRowWidth := 6
  /** Track id written on rows that no track claims. */
  const NoTrack := -1

  /** One observation handed to the tracking engine. */
  datatype Detection = Detection(tlwh: seq<int>, confidence: int, feature: seq<int>, ts: int)

  /** A box as `to_tlwh()` returns it: top, left, width, height. */
  datatype Tlwh = Tlwh(top: int, left: int, width: int, height: int)

  /** What the wrapper reads of one track of the engine. */
  datatype TrackView = TrackView(confirmed: bool, timeSinceUpdate: int, tlwh: Tlwh, trackId: int)

  /** `(matches, unmatched_tracks, unmatched_dets)`; a match is a (track index, detection index) pair. */
  datatype UpdateResult = UpdateResult(matches: seq<(int, int)>, unmatchedTracks: seq<int>, unmatchedDetections: seq<int>)

  /** One call made on the engine. */
  datatype TrackerCall = Predicted | Updated(detections: seq<Detection>, result: UpdateResult)

  /** Configuration of the appearance metric handed to the engine. */
  datatype MetricConfig = MetricConfig(kind: string, matchingThreshold: real, budget: Option<int>)

  /** The IndexError raised when a row is too short to be split; `row` is the first such row. */
  datatype ProcessError = ShortRow(row: nat)

  // ---------------------------------------------------------------------------
  // Splitting the input rows
  // ---------------------------------------------------------------------------

  /** Every row can be split into box, ts, confidence and feature. */
  predicate WellFormed(rows: seq<seq<int>>) {
    forall i :: 0 <= i < |rows| ==> |rows[i]| >= MinRowWidth
  }

  /** Box = columns 0..3, ts = column 4, confidence = column 5, feature = columns 6.. */
  function ParseRow(row: seq<int>): Detection
    requires |row| >= MinRowWidth
  {
    Detection(row[..4], row[5], row[6..], row[4])
  }

  /** A row survives the height filter unless its height is below `minHeight`. */
  predicate Kept(row: seq<int>, minHeight: int)
    requires |row| >= MinRowWidth
  {
    !(row[HeightColumn] < minHeight)
  }

  /** Indices of the rows that survive the height filter, in row order. */
  function KeptIndices(rows: seq<seq<int>>, minHeight: int): (ks: seq<int>)
    requires WellFormed(rows)
    ensures forall k :: 0 <= k < |ks| ==> 0 <= ks[k] < |rows|
    decreases |rows|
  {
    if rows == [] then []
    else
      var n := |rows| - 1;
      KeptIndices(rows[..n], minHeight) + (if Kept(rows[n], minHeight) then [n] else [])
  }

  /** The Detections built from the surviving rows, in row order. */
  function KeptDetections(rows: seq<seq<int>>, minHeight: int): seq<Detection>
    requires WellFormed(rows)
    decreases |rows|
  {
    if rows == [] then []
    else
      var n := |rows| - 1;
      KeptDetections(rows[..n], minHeight) + (if Kept(rows[n], minHeight) then [ParseRow(rows[n])] else [])
  }

  /** `dets_to_bboxes_d`: the k-th kept detection maps to its row. */
  function IndexMap(ks: seq<int>): map<int, int> {
    map k | 0 <= k < |ks| :: ks[k]
  }

  /** The kept indices are strictly increasing, name only kept rows, and name every kept row. */
  lemma {:induction false} KeptIndicesExact(rows: seq<seq<int>>, minHeight: int)
    requires WellFormed(rows)
    ensures forall j, k :: 0 <= j < k < |KeptIndices(rows, minHeight)| ==>
              KeptIndices(rows, minHeight)[j] < KeptIndices(rows, minHeight)[k]
    ensures forall k :: 0 <= k < |KeptIndices(rows, minHeight)| ==>
              Kept(rows[KeptIndices(rows, minHeight)[k]], minHeight)
    ensures forall i :: 0 <= i < |rows| && Kept(rows[i], minHeight) ==> i in KeptIndices(rows, minHeight)
    decreases |rows|
  {
    if rows != [] {
      var n := |rows| - 1;
      var prefix := rows[..n];
      KeptIndicesExact(prefix, minHeight);
      assert forall i :: 0 <= i < n ==> prefix[i] == rows[i];
    }
  }

  /** The k-th kept Detection is the parse of the row the k-th kept index names. */
  lemma {:induction false} KeptDetectionsAlign(rows: seq<seq<int>>, minHeight: int)
    requires WellFormed(rows)
    ensures |KeptDetections(rows, minHeight)| == |KeptIndices(rows, minHeight)|
    ensures forall k :: 0 <= k < |KeptIndices(rows, minHeight)| ==>
              KeptDetections(rows, minHeight)[k] == ParseRow(rows[KeptIndices(rows, minHeight)[k]])
    decreases |rows|
  {
    if rows != [] {
      var n := |rows| - 1;
      var prefix := rows[..n];
      KeptDetectionsAlign(prefix, minHeight);
      assert forall i :: 0 <= i < n ==> prefix[i] == rows[i];
    }
  }

  /** Every Detection handed to the engine has height at least `minHeight`. */
  lemma KeptDetectionsTallEnough(rows: seq<seq<int>>, minHeight: int)
    requires WellFormed(rows)
    ensures forall d :: d in KeptDetections(rows, minHeight) ==> |d.tlwh| == 4 && d.tlwh[3] >= minHeight
  {
    KeptIndicesExact(rows, minHeight);
    KeptDetectionsAlign(rows, minHeight);
    var ds, ks := KeptDetections(rows, minHeight), KeptIndices(rows, minHeight);
    forall d | d in ds ensures |d.tlwh| == 4 && d.tlwh[3] >= minHeight {
      var k :| 0 <= k < |ds| && ds[k] == d;
      assert Kept(rows[ks[k]], minHeight);
    }
  }

  /** Extending the rows by one row extends the kept indices and Detections by at most that row. */
  lemma KeptStep(rows: seq<seq<int>>, minHeight: int, i: nat)
    requires i < |rows| && WellFormed(rows[..i + 1])
    ensures WellFormed(rows[..i])
    ensures KeptIndices(rows[..i + 1], minHeight) ==
              KeptIndices(rows[..i], minHeight) + (if Kept(rows[i], minHeight) then [i] else [])
    ensures KeptDetections(rows[..i + 1], minHeight) ==
              KeptDetections(rows[..i], minHeight) + (if Kept(rows[i], minHeight) then [ParseRow(rows[i])] else [])
  {
    assert rows[..i + 1][..i] == rows[..i];
  }

  /** Appending an index to `ks` adds one binding to its map. */
  lemma IndexMapSnoc(ks: seq<int>, i: int)
    ensures IndexMap(ks + [i]) == IndexMap(ks)[|ks| := i]
  {
  }

  /** The detection-to-row map covers 0..|ks|-1, is injective, increasing, and points inside the input. */
  lemma IndexMapFacts(rows: seq<seq<int>>, minHeight: int)
    requires WellFormed(rows)
    ensures var m := IndexMap(KeptIndices(rows, minHeight));
      && (forall k :: k in m <==> 0 <= k < |KeptIndices(rows, minHeight)|)
      && (forall j, k :: j in m && k in m && j < k ==> m[j] < m[k])
      && (forall j, k :: j in m && k in m && j != k ==> m[j] != m[k])
      && (forall k :: k in m ==> 0 <= m[k] < |rows| && Kept(rows[m[k]], minHeight))
  {
    KeptIndicesExact(rows, minHeight);
  }

  // ---------------------------------------------------------------------------
  // Writing track ids back onto the rows
  // ---------------------------------------------------------------------------

  /** `to_return` before the engine runs: each row's box followed by -1. */
  function InitialOutput(rows: seq<seq<int>>): seq<seq<int>>
    requires WellFormed(rows)
  {
    seq(|rows|, i requires 0 <= i < |rows| => rows[i][..4] + [NoTrack])
  }

  /** `dict(pairs)`: a later pair overrides an earlier one with the same key. */
  function DictOf(pairs: seq<(int, int)>): (m: map<int, int>)
    ensures forall k :: k in m ==> exists i :: 0 <= i < |pairs| && pairs[i] == (k, m[k])
    decreases |pairs|
  {
    if pairs == [] then map[]
    else
      var n := |pairs| - 1;
      DictOf(pairs[..n])[pairs[n].0 := pairs[n].1]
  }

  /** `dict(pairs)` has every key of `pairs`, bound to the value of the last pair with that key. */
  lemma {:induction false} DictOfLastWins(pairs: seq<(int, int)>, i: nat)
    requires i < |pairs|
    requires forall j :: i < j < |pairs| ==> pairs[j].0 != pairs[i].0
    ensures pairs[i].0 in DictOf(pairs) && DictOf(pairs)[pairs[i].0] == pairs[i].1
    decreases |pairs|
  {
    var n := |pairs| - 1;
    if i < n {
      DictOfLastWins(pairs[..n], i);
    }
  }

  /** Only confirmed tracks updated at most one frame ago may write to the output. */
  predicate Eligible(t: TrackView) {
    t.confirmed && t.timeSinceUpdate <= 1
  }

  /** The output row a track writes: its box and its id. */
  function TrackRow(t: TrackView): seq<int> {
    [t.tlwh.top, t.tlwh.left, t.tlwh.width, t.tlwh.height, t.trackId]
  }

  /**
   * The row the track at position `idx` of the engine's list overwrites, if any:
   * the position is looked up in the match dictionary and the matched detection
   * mapped back to its row.
   */
  function Target(tracks: seq<TrackView>, idx: nat, matches: map<int, int>, detToRow: map<int, int>): Option<int>
    requires idx < |tracks|
  {
    if !Eligible(tracks[idx]) then None
    else
      match Lookup(matches, idx)
      case None => None
      case Some(d) => Lookup(detToRow, d)
  }

  /** Every value of the detection-to-row map is a row of an `n`-row output. */
  predicate RowsInside(detToRow: map<int, int>, n: int) {
    forall d :: d in detToRow ==> 0 <= detToRow[d] < n
  }

  /** The output after the first `n` tracks of the engine's list have been visited. */
  function Annotated(out0: seq<seq<int>>, tracks: seq<TrackView>, matches: map<int, int>, detToRow: map<int, int>, n: nat): (out: seq<seq<int>>)
    requires n <= |tracks| && RowsInside(detToRow, |out0|)
    ensures |out| == |out0|
    decreases n
  {
    if n == 0 then out0
    else
      var prev := Annotated(out0, tracks, matches, detToRow, n - 1);
      match Target(tracks, n - 1, matches, detToRow)
      case None => prev
      case Some(r) => prev[r := TrackRow(tracks[n - 1])]
  }

  /** The last of the first `n` tracks that writes row `r`, if any. */
  function LastWriter(tracks: seq<TrackView>, matches: map<int, int>, detToRow: map<int, int>, r: int, n: nat): (w: Option<nat>)
    requires n <= |tracks|
    ensures w.Some? ==> w.value < n && Target(tracks, w.value, matches, detToRow) == Some(r)
    ensures w.Some? ==> forall j :: w.value < j < n ==> Target(tracks, j, matches, detToRow) != Some(r)
    ensures w.None? ==> forall j :: 0 <= j < n ==> Target(tracks, j, matches, detToRow) != Some(r)
    decreases n
  {
    if n == 0 then None
    else if Target(tracks, n - 1, matches, detToRow) == Some(r) then Some(n - 1)
    else LastWriter(tracks, matches, detToRow, r, n - 1)
  }

  /** A row keeps its initial value unless some eligible track writes it; then the last writer wins. */
  lemma {:induction false} AnnotatedRow(out0: seq<seq<int>>, tracks: seq<TrackView>, matches: map<int, int>, detToRow: map<int, int>, n: nat, r: int)
    requires n <= |tracks| && RowsInside(detToRow, |out0|) && 0 <= r < |out0|
    ensures Annotated(out0, tracks, matches, detToRow, n)[r] ==
              match LastWriter(tracks, matches, detToRow, r, n)
              case None => out0[r]
              case Some(j) => TrackRow(tracks[j])
    decreases n
  {
    if n > 0 {
      AnnotatedRow(out0, tracks, matches, detToRow, n - 1, r);
    }
  }

  /** The whole result of `process` for given rows, engine tracks and engine matches. */
  function ProcessOutput(rows: seq<seq<int>>, minHeight: int, tracks: seq<TrackView>, matches: seq<(int, int)>): seq<seq<int>>
    requires WellFormed(rows)
  {
    var ks := KeptIndices(rows, minHeight);
    Annotated(InitialOutput(rows), tracks, DictOf(matches), IndexMap(ks), |tracks|)
  }

  /**
   * The output of `process` has one 5-column row per input row. A row keeps its
   * box and -1 unless a confirmed, fresh track whose list position is matched to a
   * kept detection of that row exists; then it holds the last such track's box and id.
   */
  lemma ProcessOutputRows(rows: seq<seq<int>>, minHeight: int, tracks: seq<TrackView>, matches: seq<(int, int)>, r: int)
    requires WellFormed(rows) && 0 <= r < |rows|
    ensures var out := ProcessOutput(rows, minHeight, tracks, matches);
      && |out| == |rows|
      && |out[r]| == 5
      && out[r] == match LastWriter(tracks, DictOf(matches), IndexMap(KeptIndices(rows, minHeight)), r, |tracks|)
                   case None => rows[r][..4] + [NoTrack]
                   case Some(j) => TrackRow(tracks[j])
  {
    var ks := KeptIndices(rows, minHeight);
    AnnotatedRow(InitialOutput(rows), tracks, DictOf(matches), IndexMap(ks), |tracks|, r);
  }

  /** A row is overwritten only through a kept detection whose row it is, by an eligible track. */
  lemma ProcessOutputWriters(rows: seq<seq<int>>, minHeight: int, tracks: seq<TrackView>, matches: seq<(int, int)>, r: int)
    requires WellFormed(rows) && 0 <= r < |rows|
    requires ProcessOutput(rows, minHeight, tracks, matches)[r] != rows[r][..4] + [NoTrack]
    ensures exists j, d :: 0 <= j < |tracks| && Eligible(tracks[j]) && 0 <= d < |KeptIndices(rows, minHeight)|
              && (j, d) in matches && KeptIndices(rows, minHeight)[d] == r
              && ProcessOutput(rows, minHeight, tracks, matches)[r] == TrackRow(tracks[j])
  {
    var ks := KeptIndices(rows, minHeight);
    var mm := DictOf(matches);
    ProcessOutputRows(rows, minHeight, tracks, matches, r);
    var w := LastWriter(tracks, mm, IndexMap(ks), r, |tracks|);
    var j := w.value;
    var d := mm[j];
    var i :| 0 <= i < |matches| && matches[i] == (j, mm[j]);
    assert matches[i] in matches;
  }

  // ---------------------------------------------------------------------------
  // The tracking engine, as an oracle
  // ---------------------------------------------------------------------------

  /**
   * The engine behind `DeepSort`. Its real behaviour is not part of this model:
   * `Predict` and `Update` may leave any track list and return any result. The
   * ghost `calls` records every call made on it, with the detections passed and
   * the result returned.
   */
  class Tracker {
    const metric: MetricConfig
    var tracks: seq<TrackView>
    ghost var calls: seq<TrackerCall>

    constructor (metric: MetricConfig)
      ensures this.metric == metric && tracks == [] && calls == []
    {
      this.metric := metric;
      tracks := [];
      calls := [];
    }

    method Predict()
      modifies this
      ensures calls == old(calls) + [Predicted]
    {
      tracks := *;
      calls := calls + [Predicted];
    }

    method Update(detections: seq<Detection>) returns (result: UpdateResult)
      modifies this
      ensures calls == old(calls) + [Updated(detections, result)]
    {
      tracks := *;
      result := *;
      calls := calls + [Updated(detections, result)];
    }
  }

  /** `after` extends `before` by one predict followed by one update with `detections`. */
  ghost predicate PredictThenUpdate(before: seq<TrackerCall>, after: seq<TrackerCall>, detections: seq<Detection>) {
    && |after| == |before| + 2
    && after[..|before|] == before
    && after[|before|] == Predicted
    && after[|before| + 1].Updated?
    && after[|before| + 1].detections == detections
  }

  /**
   * The first loop of `process`: splits every row, keeps the tall-enough ones as
   * Detections and records for each kept detection the row it came from. A row
   * too short to be split raises IndexError.
   */
  method SplitRows(rows: seq<seq<int>>, minHeight: int) returns (r: Result<(seq<Detection>, map<int, int>), ProcessError>)
    ensures r.Failure? <==> !WellFormed(rows)
    ensures r.Failure? ==> r.error.row < |rows| && |rows[r.error.row]| < MinRowWidth
                           && WellFormed(rows[..r.error.row])
    ensures r.Success? ==> r.value.0 == KeptDetections(rows, minHeight)
                           && r.value.1 == IndexMap(KeptIndices(rows, minHeight))
  {
    var detectionList: seq<Detection> := [];
    var detsToBboxes: map<int, int> := map[];
    var detsIdx := -1;
    var idx := 0;
    while idx < |rows|
      invariant 0 <= idx <= |rows|
      invariant WellFormed(rows[..idx])
      invariant detectionList == KeptDetections(rows[..idx], minHeight)
      invariant detsToBboxes == IndexMap(KeptIndices(rows[..idx], minHeight))
      invariant detsIdx == |KeptIndices(rows[..idx], minHeight)| - 1
    {
      var bboxData := rows[idx];
      if |bboxData| < MinRowWidth {
        assert !WellFormed(rows);
        return Failure(ShortRow(idx));
      }
      assert WellFormed(rows[..idx + 1]);
      KeptStep(rows, minHeight, idx);
      if !(bboxData[HeightColumn] < minHeight) {
        detectionList := detectionList + [ParseRow(bboxData)];
        detsIdx := detsIdx + 1;
        IndexMapSnoc(KeptIndices(rows[..idx], minHeight), idx);
        detsToBboxes := detsToBboxes[detsIdx := idx];
      }
      idx := idx + 1;
    }
    assert rows[..idx] == rows;
    r := Success((detectionList, detsToBboxes));
  }

  /**
   * The second loop of `process`: every confirmed track updated at most one frame
   * ago whose list position is matched to a detection overwrites that detection's
   * row with its box and id.
   */
  method WriteTrackIds(out: array<seq<int>>, tracks: seq<TrackView>, matches: map<int, int>, detToRow: map<int, int>)
    requires RowsInside(detToRow, out.Length)
    modifies out
    ensures out[..] == Annotated(old(out[..]), tracks, matches, detToRow, |tracks|)
  {
    ghost var out0 := out[..];
    var idx := 0;
    while idx < |tracks|
      invariant 0 <= idx <= |tracks|
      invariant out[..] == Annotated(out0, tracks, matches, detToRow, idx)
    {
      var track := tracks[idx];
      if !track.confirmed || track.timeSinceUpdate > 1 {
        idx := idx + 1;
        continue;
      }
      var boxIdx := match Lookup(matches, idx)
                    case None => None
                    case Some(d) => Lookup(detToRow, d);
      if boxIdx.Some? {
        out[boxIdx.value] := TrackRow(track);
      }
      idx := idx + 1;
    }
  }

  /** The `DeepSort` object: a height filter and the engine it drives. */
  class DeepSort {
    const minHeight: int
    const maxCosineDistance: real
    const nnBudget: Option<int>
    const tracker: Tracker

    /** Builds the engine with a cosine appearance metric gated by `maxCosineDistance` and budget `nnBudget`. */
    constructor (minHeight: int, maxCosineDistance: real, nnBudget: Option<int>)
      ensures this.minHeight == minHeight && this.maxCosineDistance == maxCosineDistance && this.nnBudget == nnBudget
      ensures fresh(tracker) && tracker.metric == MetricConfig("cosine", maxCosineDistance, nnBudget)
      ensures tracker.tracks == [] && tracker.calls == []
    {
      this.minHeight := minHeight;
      this.maxCosineDistance := maxCosineDistance;
      this.nnBudget := nnBudget;
      tracker := new Tracker(MetricConfig("cosine", maxCosineDistance, nnBudget));
    }

    /** The defaults of the Python constructor: no height filter, threshold 0.2, no budget. */
    constructor Default()
      ensures minHeight == 0 && maxCosineDistance == 0.2 && nnBudget == None
      ensures fresh(tracker) && tracker.metric == MetricConfig("cosine", 0.2, None)
      ensures tracker.tracks == [] && tracker.calls == []
    {
      minHeight := 0;
      maxCosineDistance := 0.2;
      nnBudget := None;
      tracker := new Tracker(MetricConfig("cosine", 0.2, None));
    }

    /** One frame: the engine predicts once, then is updated with exactly the given detections. */
    method Update(detectionList: seq<Detection>)
      modifies tracker
      ensures PredictThenUpdate(old(tracker.calls), tracker.calls, detectionList)
    {
      tracker.Predict();
      var _ := tracker.Update(detectionList);
    }

    /**
     * Annotates a detection matrix with track ids. A row too short to split makes
     * the call fail before the engine is touched. Otherwise the engine predicts
     * once and is updated with the kept Detections in row order, and the result is
     * the `ProcessOutput` of the rows for the engine's new track list and matches.
     */
    method Process(rows: seq<seq<int>>) returns (r: Result<seq<seq<int>>, ProcessError>)
      modifies tracker
      ensures r.Failure? <==> !WellFormed(rows)
      ensures r.Failure? ==> unchanged(tracker)
      ensures r.Success? ==>
                && PredictThenUpdate(old(tracker.calls), tracker.calls, KeptDetections(rows, minHeight))
                && r.value == ProcessOutput(rows, minHeight, tracker.tracks,
                                            tracker.calls[|tracker.calls| - 1].result.matches)
    {
      var split := SplitRows(rows, minHeight);
      if split.Failure? {
        return Failure(split.error);
      }
      var (detectionList, detsToBboxes) := split.value;
      var init := InitialOutput(rows);
      var toReturn := new seq<int>[|init|](i requires 0 <= i < |init| => init[i]);
      assert toReturn[..] == init;
      tracker.Predict();
      var result := tracker.Update(detectionList);
      var tracksToDets := DictOf(result.matches);
      IndexMapFacts(rows, minHeight);
      WriteTrackIds(toReturn, tracker.tracks, tracksToDets, detsToBboxes);
      r := Success(toReturn[..]);
    }
  }
}
