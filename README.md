# Track bookkeeping around a DeepSort tracker, and the visit/receipt tables

This project models, in Dafny, the deterministic bookkeeping of a video-analytics
service that tracks people in front of a till and ties till receipts to their visits:

- **`DeepSort`** (`tracker_deepsort/deepsort.py`): `process` takes a detection matrix
  whose rows are `[top, left, width, height, ts, confidence, feature...]`, drops the rows
  whose height is below `min_height`, hands the remaining Detections to the tracking
  engine (one `predict`, one `update`) and returns one `[top, left, width, height, track_id]`
  row per input row: -1 unless a confirmed track updated at most one frame ago was matched
  to that row's detection. `update` drives the engine once per frame. The engine itself
  (Kalman filter, track lifecycle, appearance metric, assignment) is an oracle class
  `Tracker` that may answer anything; every property is proved for all its answers.
- **Frame serialisation** (`models/frame.py`): `get_bboxes`, `get_features` and
  `get_raw_det` turn a frame into exactly the rows `process` parses (proved in module
  `Layout`); `get_features` takes, per object, the first value that `get_face_feature`'s
  'face_id' filter would yield; and `Array.validate_type` decides whether a
  value is reshaped to a declared shape.
- **Visit tables** (`kkm.py`): visits are kept in lists per lower-cased computer name;
  a new visit is appended unless its track id is already listed; a receipt from the till
  computer `AP29Kassa1` goes to the not-yet-paid visit whose time range overlaps it most
  (the first one on ties) and that visit is persisted by track id; a track message
  refreshes the last time, time range and (for state 4) the state of the visits with its
  track id, in the list named by its key up to the first `-`.

Modules: `Common` (Option, Result, dict lookup), `DeepSortModel`, `FrameModel`, `KkmModel`
and `Layout` (the producer/consumer agreement). The `DeepSort`, `Tracker`, `Visit` and
`KkmVisits` objects, whose fields the source updates in place, are classes; the rest is
functions and lemmas. Numbers are integers and times are integer seconds.

Behaviour of the code that the model keeps:

- `process` raises IndexError on a row with fewer than 6 columns before the engine is
  called; the model returns `Failure(ShortRow(i))` for the first such row and leaves the
  engine untouched.
- The write-back loop uses each track's position in the engine's list *after* `update`
  as the key into `dict(matches)`; a later pair in `matches` overrides an earlier one
  with the same key, and when two tracks claim the same row the later one wins.
- `get_raw_det` fails on a frame without objects: both lists are then one-dimensional
  and the concatenation along axis 1 raises.
- In `process_visits`, `t = vis` only rebinds a local name, so a visit whose track id is
  already listed changes nothing stored.
- The stored `Visit` objects are shared between `table_visits` and
  `persist_table_visits`, so a later track message also changes a persisted visit.

- The engine's `update` returns `(matches, unmatched_tracks, unmatched_dets)`
  (tracker_deepsort/deepsort.py:70), and the wrapper reads the engine's `tracks` list
  itself (tracker_deepsort/deepsort.py:73).

## Model

| member | source | states |
|---|---|---|
| `DeepSortModel.KeptIndices` | tracker_deepsort/deepsort.py:57-65 | every recorded row index lies inside the input |
| `DeepSortModel.KeptIndicesExact` | tracker_deepsort/deepsort.py:58-65 | the recorded row indices are strictly increasing, name only rows of height at least `min_height`, and name every such row |
| `DeepSortModel.KeptDetectionsAlign` | tracker_deepsort/deepsort.py:58-65 | the k-th Detection handed to the engine is the parse (box = cols 0..3, ts = col 4, confidence = col 5, feature = cols 6..) of the row recorded for k, so input row order is preserved |
| `DeepSortModel.KeptDetectionsTallEnough` | tracker_deepsort/deepsort.py:61-63 | every Detection handed to the engine has a 4-value box whose height is at least `min_height` |
| `DeepSortModel.KeptStep` | tracker_deepsort/deepsort.py:58-65 | one more row adds at most that row to the kept indices and Detections |
| `DeepSortModel.IndexMapFacts` | tracker_deepsort/deepsort.py:56-65 | `dets_to_bboxes_d` has keys 0..k-1, is injective and strictly increasing, and maps into kept rows of the input |
| `DeepSortModel.SplitRows` | tracker_deepsort/deepsort.py:55-65 | fails exactly when a row has fewer than 6 columns, naming the first one; otherwise returns the kept Detections and the detection-to-row map |
| `DeepSortModel.DictOf` | tracker_deepsort/deepsort.py:71 | every binding of `dict(matches)` comes from a pair of `matches` |
| `DeepSortModel.DictOfLastWins` | tracker_deepsort/deepsort.py:71 | every key of `matches` is in `dict(matches)`, bound to the value of its last pair |
| `DeepSortModel.Annotated` | tracker_deepsort/deepsort.py:73-82 | the write-back loop never changes the number of output rows |
| `DeepSortModel.LastWriter` | tracker_deepsort/deepsort.py:73-82 | the last track writing a row is eligible and matched to that row, and no later track writes it; none means no track writes it |
| `DeepSortModel.AnnotatedRow` | tracker_deepsort/deepsort.py:73-82 | each row keeps its initial value unless some track writes it, and then holds the last writer's box and id |
| `DeepSortModel.ProcessOutputRows` | tracker_deepsort/deepsort.py:67-82 | the output has one 5-column row per input row: the input box and -1, unless a confirmed track with `time_since_update <= 1` whose position is matched to that row's detection exists, then the last such track's box and id |
| `DeepSortModel.ProcessOutputWriters` | tracker_deepsort/deepsort.py:71-82 | a row that does not hold its box and -1 was written by an eligible track at position j with a pair (j, d) in `matches` and detection d coming from that row |
| `DeepSortModel.WriteTrackIds` | tracker_deepsort/deepsort.py:73-82 | the in-place loop over the engine's tracks leaves the array equal to the specified annotation of its old contents |
| `DeepSortModel.Tracker.constructor` | tracker_deepsort/deepsort.py:32-35 | the engine keeps the metric it is given and starts with no tracks and no calls |
| `DeepSortModel.Tracker.Predict` | tracker_deepsort/deepsort.py:42 | a predict call is recorded; the tracks may change arbitrarily |
| `DeepSortModel.Tracker.Update` | tracker_deepsort/deepsort.py:43 | an update call is recorded with the detections passed and the result returned |
| `DeepSortModel.DeepSort.constructor` | tracker_deepsort/deepsort.py:26-35 | stores `min_height`, `max_cosine_distance`, `nn_budget` and builds a fresh engine with a cosine metric over that threshold and budget |
| `DeepSortModel.DeepSort.Default` | tracker_deepsort/deepsort.py:26-27 | the defaults are `min_height` 0, threshold 0.2, no budget |
| `DeepSortModel.DeepSort.Update` | tracker_deepsort/deepsort.py:41-43 | the engine is asked to predict exactly once and then to update with exactly the given detection list |
| `DeepSortModel.DeepSort.Process` | tracker_deepsort/deepsort.py:45-85 | a short row fails with the engine untouched; otherwise one predict and one update with the kept Detections in row order, and the result is the annotation characterised by `ProcessOutputRows` for the engine's new tracks and matches |
| `FrameModel.FaceFeaturesAppend` | models/frame.py:73-74 | the 'face_id' filter distributes over concatenation, so tensor order is kept |
| `FrameModel.FaceFeaturesExact` | models/frame.py:73-74 | the data of every 'face_id' tensor is yielded, nothing else is, and the result is empty exactly when there is no 'face_id' tensor |
| `FrameModel.FirstFaceFeature` | models/frame.py:73-74 | the first value yielded is the data of the first 'face_id' tensor |
| `FrameModel.GetBboxes` | models/frame.py:95-96 | fails (AttributeError) exactly when an object has no detection; otherwise one 6-value row per object: x, y, w, h, the frame's ts, the detection's confidence |
| `FrameModel.GetFeaturesSpec` | models/frame.py:98-99 | fails (IndexError) exactly when an object has no 'face_id' tensor; otherwise one entry per object, the data of its first 'face_id' tensor |
| `FrameModel.GetRawDetRows` | models/frame.py:101-104 | a successful result has one row per object, equal to its bbox row followed by its feature, all rows of one width of at least 6 |
| `FrameModel.GetRawDetEmpty` | models/frame.py:101-104 | a frame without objects cannot be serialised |
| `FrameModel.WithMinRank` | models/frame.py:27 | the rank becomes at least `ndmin` and is otherwise kept |
| `FrameModel.ReshapeConforms` | models/frame.py:31-32 | a successful reshape keeps the elements and yields a valid array of the declared rank and sizes |
| `FrameModel.ValidateTypeNoShape` | models/frame.py:20-27 | with no declared shape the value is returned unchanged, without reshape |
| `FrameModel.ValidateTypeRank` | models/frame.py:27-29 | with a declared shape the rank assertion fails exactly when the value has a higher rank than the shape's length |
| `FrameModel.ValidateTypeConforms` | models/frame.py:20-33 | a successful validation keeps the elements and yields a valid array of the declared rank whose every dimension other than a declared -1 is the declared one |
| `FrameModel.ValidateTypeKeepsConforming` | models/frame.py:31-33 | a value already of the declared rank and sizes is not reshaped |
| `FrameModel.ValidateTypeIdempotent` | models/frame.py:20-33 | validating a validated value gives it back |
| `Layout.RawDetRowsParse` | models/frame.py:95-104 | every row `get_raw_det` produces splits, as `process` splits it, into the object's box, confidence, 'face_id' feature and the frame's ts, and survives the height filter exactly when the object's height is at least `min_height` |
| `KkmModel.IntersectsSymmetric` | kkm.py:98-99 | the stated intersection test is symmetric and holds exactly when the overlap length is non-negative |
| `KkmModel.LowerKeepsDashes` | kkm.py:135-136 | lower-casing keeps the length and every '-' |
| `KkmModel.BeforeDashSpec` | kkm.py:135-136 | `split('-')[0]` is a prefix without '-' that ends at the first '-' or at the end |
| `KkmModel.KeyPrefixSpec` | kkm.py:135-136 | the list key of a track message is the lower-cased key cut before its first '-', and the whole lower-cased key when it has none |
| `KkmModel.Candidates` | kkm.py:98 | candidate positions lie inside the visit list |
| `KkmModel.CandidatesExact` | kkm.py:98 | candidate positions are in list order and are exactly the visits whose range intersects the receipt's and that have no receipt guid |
| `KkmModel.FirstMax` | kkm.py:98-99 | `max(..., default=False)` returns one of the candidates, or none |
| `KkmModel.FirstMaxSpec` | kkm.py:98-99 | over increasing positions, the choice is empty only without candidates, has the largest overlap, and a strictly larger one than every earlier candidate |
| `KkmModel.SelectVisitSpec` | kkm.py:98-99 | no visit is chosen exactly when no visit is a candidate; otherwise the chosen one is a candidate of largest overlap, the first in list order among equals |
| `KkmModel.SetDefault` | kkm.py:95-96 | `setdefault(key, [])` adds an empty list under a missing key and changes nothing else |
| `KkmModel.Visit.constructor` | kkm.py:110-113 | a visit read from a message carries its fields and the range from its start to its last time |
| `KkmModel.KkmVisits.constructor` | kkm.py:30-34 | the tables start empty |
| `KkmModel.KkmVisits.MatchReceipt` | kkm.py:98-102 | the visit chosen by the largest-overlap rule (only visits without a guid whose range meets the receipt's) takes the guid and is persisted under its track id; with no candidate neither the persisted table nor any visit changes; every other visit is unchanged |
| `KkmModel.KkmVisits.ProcessKkm` | kkm.py:90-102 | only receipts from `AP29Kassa1` act; the till's list is created if missing; the chosen visit takes the receipt's guid and is persisted under its track id, other visits and (with no choice) the persisted table are unchanged; a visit with a guid keeps it; list invariants are kept |
| `KkmModel.KkmVisits.ProcessVisits` | kkm.py:107-127 | the list under the lower-cased computer exists afterwards; it grows by a fresh visit carrying every field of the message (track id, computer, ap, state, face id, times, guid) and the range (start, last) only when its track id is not listed, and is otherwise unchanged; track ids stay unique per list |
| `KkmModel.KkmVisits.ProcessTracks` | kkm.py:129-141 | the list under the key's prefix exists afterwards; visits with the message's track id get its time as last time and a range from their start to it, their state only for state 4; all other visits are unchanged |

## Left out

- The tracking engine (Kalman filter, Track lifecycle, nearest-neighbour appearance metric, cascade and IOU assignment): its source, tracker_deepsort/tracker.py and the files beside it, is not part of this model. It is the oracle `Tracker`.
- DeepSortModel.Tracker.Predict: promises nothing about the tracks afterwards, because the engine's behaviour is not modelled; the same holds for DeepSortModel.Tracker.Update and its result.
- The two empty-string arguments `process` passes to the engine's Detection constructor: their meaning lies in tracker_deepsort/detection.py, which is not part of this model.
- Floating point: boxes, confidences, features and `to_tlwh` are integers; the final `np.int32` cast and numpy's concatenation mechanics in `process` are not modelled.
- `DeepSort.__call__`, which only returns the object.
- In models/frame.py: pydantic and numpy type coercion (dtype conversion, values that are not arrays yet), the Tensor metadata fields the code never reads (confidence, label id, format, layer name, model name), and the asynchronous generator form of `get_face_feature`, modelled as a sequence.
- FrameModel.ValidateType: declared dimensions below -1 are excluded by `ValidDeclaration`, because numpy's treatment of them is not modelled.
- FrameModel.GetRawDet: a mix of absent and present feature data is reported as `MissingData`; numpy's object-array handling of it is not modelled.
- In kkm.py: the Kafka streams, agents and timer, the Mongo `insert_one`/`replace_one` calls and `db_id`, the `try/except` printing, `ts_to_iso` and the Moscow time-zone localisation (times are plain seconds), UTF-8 decoding of message keys (keys are decoded strings), the unused `table_kkm` and `persist_table_tracks` tables, and absent (`None`) start or end times.
- The `DateTimeRange` library: intersection is a stated definition on closed ranges (touching ranges intersect, with overlap 0); reversed ranges are not rejected.
- `str.lower()` is modelled for the ASCII letters only.
- A chosen visit is taken to be truthy, as a record object without a length is.
- gst-dev.py, frame_meta_processor.py, postproc_callback_meta.py and tracker_deepsort/ndencoder.py: pipeline construction, drawing, message rewriting and JSON encoding are I/O around the core.
