/**
 * The row layout shared by the producer (`Frame.get_raw_det` in models/frame.py)
 * and the consumer (`DeepSort.process` in tracker_deepsort/deepsort.py).
 */
module Layout {
  import opened Common
  import FrameModel
  import DeepSortModel

  /**
   * Every row `get_raw_det` produces can be split by `process`, and splitting it
   * gives back the object's box, the frame's ts, the object's confidence and its
   * 'face_id' feature. An object's row survives the height filter exactly when
   * the object's height is at least `minHeight`.
   */
  lemma RawDetRowsParse(f: FrameModel.Frame, minHeight: int)
    requires FrameModel.GetRawDet(f).Success?
    ensures DeepSortModel.WellFormed(FrameModel.GetRawDet(f).value)
    ensures var rows := FrameModel.GetRawDet(f).value;
      && |rows| == |f.objects|
      && forall i :: 0 <= i < |rows| ==>
           var o := f.objects[i];
           && o.detection.Some?
           && FrameModel.GetFeatures(f).Success?
           && FrameModel.GetFeatures(f).value[i].Some?
           && DeepSortModel.ParseRow(rows[i]) ==
                DeepSortModel.Detection([o.x, o.y, o.w, o.h], o.detection.value.confidence,
                                        FrameModel.GetFeatures(f).value[i].value, f.ts)
           && (DeepSortModel.Kept(rows[i], minHeight) <==> o.h >= minHeight)
  {
    FrameModel.GetRawDetRows(f);
    var rows := FrameModel.GetRawDet(f).value;
    var bboxes := FrameModel.GetBboxes(f).value;
    var features := FrameModel.GetFeatures(f).value;
    forall i | 0 <= i < |rows|
      ensures DeepSortModel.ParseRow(rows[i]) ==
                DeepSortModel.Detection([f.objects[i].x, f.objects[i].y, f.objects[i].w, f.objects[i].h],
                                        f.objects[i].detection.value.confidence, features[i].value, f.ts)
    {
      assert rows[i] == bboxes[i] + features[i].value;
      assert rows[i][..4] == bboxes[i][..4];
      assert rows[i][6..] == features[i].value;
    }
  }
}
