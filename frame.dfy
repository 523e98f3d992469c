/**
 * The frame records of models/frame.py and the rows they serialise into:
 * `[x, y, w, h, ts, confidence, feature...]`, one per detected object, which is
 * the layout `DeepSort.process` parses. Also the shape decision of
 * `Array.validate_type`, with arrays modelled as a shape and a flat, row-major
 * sequence of elements. All numbers are integers.
 */
module FrameModel {
  import opened Common

  /** Name of the tensor carrying the appearance feature of an object. */
  const FaceIdTensor := "face_id"

  datatype BoundingBox = BoundingBox(xMax: int, xMin: int, yMax: int, yMin: int)

  /** The detector's verdict on one object. */
  datatype Detection = Detection(boundingBox: BoundingBox, confidence: int, labelId: int, labelName: string)

  /** One output tensor of a model run on an object; `data` is absent when the message carries none. */
  datatype Tensor = Tensor(name: string, layout: string, precision: string, data: Option<seq<int>>)

  /** One region of interest: its box, the detection (possibly absent) and its tensors. */
  datatype Roi = Roi(x: int, y: int, w: int, h: int, detection: Option<Detection>, tensors: seq<Tensor>,
                     id: Option<int>, roiType: Option<string>)

  datatype Resolution = Resolution(height: int, width: int)

  datatype Tags = Tags(ap: string, computer: string)

  datatype Frame = Frame(tags: Tags, timestamp: string, source: string, resolution: Resolution, ts: int, objects: seq<Roi>)

  /** The exception a serialisation step raises. */
  datatype FrameError =
    | MissingDetection   // `roi.detection` is None: AttributeError
    | MissingFaceId      // an object has no 'face_id' tensor: IndexError
    | NoRows             // concatenating along axis 1 with no objects: AxisError
    | MissingData        // a 'face_id' tensor without data
    | RaggedFeatures     // features of different lengths cannot form a matrix: ValueError

  // ---------------------------------------------------------------------------
  // Features of an object
  // ---------------------------------------------------------------------------

  /** `get_face_feature`: the data of the 'face_id' tensors, in tensor order. */
  function FaceFeatures(tensors: seq<Tensor>): seq<Option<seq<int>>>
    decreases |tensors|
  {
    if tensors == [] then []
    else (if tensors[0].name == FaceIdTensor then [tensors[0].data] else []) + FaceFeatures(tensors[1..])
  }

  /** Filtering a concatenation is concatenating the filtered parts: the order of tensors is kept. */
  lemma {:induction false} FaceFeaturesAppend(a: seq<Tensor>, b: seq<Tensor>)
    ensures FaceFeatures(a + b) == FaceFeatures(a) + FaceFeatures(b)
    decreases |a|
  {
    if a == [] {
      assert a + b == b;
    } else {
      assert (a + b)[0] == a[0];
      assert (a + b)[1..] == a[1..] + b;
      FaceFeaturesAppend(a[1..], b);
    }
  }

  /** Exactly the data of the 'face_id' tensors is yielded, and no other tensor's. */
  lemma {:induction false} FaceFeaturesExact(tensors: seq<Tensor>)
    ensures forall t :: t in tensors && t.name == FaceIdTensor ==> t.data in FaceFeatures(tensors)
    ensures forall d :: d in FaceFeatures(tensors) ==> exists t :: t in tensors && t.name == FaceIdTensor && t.data == d
    ensures FaceFeatures(tensors) == [] <==> forall t :: t in tensors ==> t.name != FaceIdTensor
    decreases |tensors|
  {
    if tensors != [] {
      FaceFeaturesExact(tensors[1..]);
      assert forall t :: t in tensors[1..] ==> t in tensors;
      assert forall t :: t in tensors ==> t == tensors[0] || t in tensors[1..];
    }
  }

  /** The first 'face_id' tensor of a list that has one is the first one found in it. */
  lemma {:induction false} FirstFaceFeature(tensors: seq<Tensor>, i: nat)
    requires i < |tensors| && tensors[i].name == FaceIdTensor
    requires forall j :: 0 <= j < i ==> tensors[j].name != FaceIdTensor
    ensures FaceFeatures(tensors) != [] && FaceFeatures(tensors)[0] == tensors[i].data
    decreases i
  {
    if i > 0 {
      FirstFaceFeature(tensors[1..], i - 1);
    }
  }

  // ---------------------------------------------------------------------------
  // Serialising a frame
  // ---------------------------------------------------------------------------

  /** The bbox row of one object: x, y, w, h, the frame's ts, the detection's confidence. */
  function BboxRow(ts: int, roi: Roi): seq<int>
    requires roi.detection.Some?
  {
    [roi.x, roi.y, roi.w, roi.h, ts, roi.detection.value.confidence]
  }

  /** `get_bboxes`: one bbox row per object, failing when an object has no detection. */
  function GetBboxes(f: Frame): (r: Result<seq<seq<int>>, FrameError>)
    ensures r.Success? <==> forall i :: 0 <= i < |f.objects| ==> f.objects[i].detection.Some?
    ensures r.Failure? ==> r.error == MissingDetection
    ensures r.Success? ==> |r.value| == |f.objects|
    ensures r.Success? ==> forall i :: 0 <= i < |r.value| ==>
              |r.value[i]| == 6 && r.value[i][..4] == [f.objects[i].x, f.objects[i].y, f.objects[i].w, f.objects[i].h]
              && r.value[i][4] == f.ts && r.value[i][5] == f.objects[i].detection.value.confidence
  {
    if exists i :: 0 <= i < |f.objects| && f.objects[i].detection.None? then Failure(MissingDetection)
    else Success(seq(|f.objects|, i requires 0 <= i < |f.objects| => BboxRow(f.ts, f.objects[i])))
  }

  /** `get_features`: per object, the data of its first 'face_id' tensor, failing when an object has none. */
  function GetFeatures(f: Frame): (r: Result<seq<Option<seq<int>>>, FrameError>)
  {
    if exists i :: 0 <= i < |f.objects| && FaceFeatures(f.objects[i].tensors) == [] then Failure(MissingFaceId)
    else Success(seq(|f.objects|, i requires 0 <= i < |f.objects| => FaceFeatures(f.objects[i].tensors)[0]))
  }

  /** What `get_features` yields for each object, in terms of the object's tensors. */
  lemma GetFeaturesSpec(f: Frame)
    ensures GetFeatures(f).Success? <==>
              forall i :: 0 <= i < |f.objects| ==> exists t :: t in f.objects[i].tensors && t.name == FaceIdTensor
    ensures GetFeatures(f).Failure? ==> GetFeatures(f).error == MissingFaceId
    ensures GetFeatures(f).Success? ==> |GetFeatures(f).value| == |f.objects|
    ensures GetFeatures(f).Success? ==>
              (forall i, j :: 0 <= i < |f.objects| && 0 <= j < |f.objects[i].tensors|
                 && f.objects[i].tensors[j].name == FaceIdTensor
                 && (forall j' :: 0 <= j' < j ==> f.objects[i].tensors[j'].name != FaceIdTensor)
                 ==> GetFeatures(f).value[i] == f.objects[i].tensors[j].data)
  {
    forall i | 0 <= i < |f.objects|
      ensures FaceFeatures(f.objects[i].tensors) == [] <==>
                !exists t :: t in f.objects[i].tensors && t.name == FaceIdTensor
    {
      FaceFeaturesExact(f.objects[i].tensors);
    }
    assert GetFeatures(f).Success? <==> forall i :: 0 <= i < |f.objects| ==> FaceFeatures(f.objects[i].tensors) != [];
    forall i, j | 0 <= i < |f.objects| && 0 <= j < |f.objects[i].tensors|
      && f.objects[i].tensors[j].name == FaceIdTensor
      && (forall j' :: 0 <= j' < j ==> f.objects[i].tensors[j'].name != FaceIdTensor)
    {
      FirstFaceFeature(f.objects[i].tensors, j);
    }
  }

  /** All features are present and of one length, so that they stack into a matrix. */
  predicate Stackable(features: seq<Option<seq<int>>>) {
    && (forall i :: 0 <= i < |features| ==> features[i].Some?)
    && (forall i, j :: 0 <= i < |features| && 0 <= j < |features| ==> |features[i].value| == |features[j].value|)
  }

  /**
   * `get_raw_det`: the bbox rows with each object's feature appended. The
   * concatenation along axis 1 fails on a frame without objects (both lists are
   * then one-dimensional), on a missing feature, and on features of different lengths.
   */
  function GetRawDet(f: Frame): Result<seq<seq<int>>, FrameError> {
    match GetBboxes(f)
    case Failure(e) => Failure(e)
    case Success(bboxes) =>
      match GetFeatures(f)
      case Failure(e) => Failure(e)
      case Success(features) =>
        if |f.objects| == 0 then Failure(NoRows)
        else if exists i :: 0 <= i < |features| && features[i].None? then Failure(MissingData)
        else if !Stackable(features) then Failure(RaggedFeatures)
        else Success(seq(|bboxes|, i requires 0 <= i < |bboxes| => bboxes[i] + features[i].value))
  }

  /** Each raw detection row is the object's bbox row followed by its feature; all rows have one width. */
  lemma GetRawDetRows(f: Frame)
    requires GetRawDet(f).Success?
    ensures GetBboxes(f).Success? && GetFeatures(f).Success? && Stackable(GetFeatures(f).value)
    ensures var rows := GetRawDet(f).value;
      && |rows| == |f.objects| > 0
      && (forall i :: 0 <= i < |rows| ==>
            rows[i] == GetBboxes(f).value[i] + GetFeatures(f).value[i].value
            && |rows[i]| == |rows[0]| >= 6)
  {
  }

  /** A frame with no objects cannot be serialised. */
  lemma GetRawDetEmpty(f: Frame)
    requires f.objects == []
    ensures GetRawDet(f) == Failure(NoRows)
  {
  }

  // ---------------------------------------------------------------------------
  // Array.validate_type
  // ---------------------------------------------------------------------------

  /** An n-dimensional array: its shape and its elements in row-major order. */
  datatype NdArray = NdArray(shape: seq<int>, data: seq<int>)

  /** Number of elements an array of shape `s` holds. */
  function Product(s: seq<int>): int
    decreases |s|
  {
    if s == [] then 1 else s[0] * Product(s[1..])
  }

  /** Dimensions are sizes and the element count agrees with them. */
  predicate ValidArray(a: NdArray) {
    && (forall i :: 0 <= i < |a.shape| ==> a.shape[i] >= 0)
    && |a.data| == Product(a.shape)
  }

  /** An array class's declaration: a dtype alone, or a (dtype, shape) tuple; -1 in a shape means any size. */
  datatype Declared = DtypeOnly | DtypeAndShape(shape: seq<int>)

  /** A declared dimension is a size or -1. */
  predicate ValidDeclaration(decl: Declared) {
    decl.DtypeAndShape? ==> forall i :: 0 <= i < |decl.shape| ==> decl.shape[i] >= -1
  }

  function DeclaredShape(decl: Declared): seq<int> {
    if decl.DtypeAndShape? then decl.shape else []
  }

  /** The exception `validate_type` raises. */
  datatype ArrayError =
    | RankMismatch   // the `assert` on the rank fails: AssertionError
    | ReshapeFailed  // `reshape` cannot produce the declared shape: ValueError

  /** `np.array(val, ndmin=n)`: leading dimensions of size 1 are added up to rank n. */
  function WithMinRank(a: NdArray, ndmin: nat): (r: NdArray)
    ensures |r.shape| == if |a.shape| >= ndmin then |a.shape| else ndmin
  {
    if |a.shape| >= ndmin then a else NdArray(seq(ndmin - |a.shape|, _ => 1) + a.shape, a.data)
  }

  /** Number of unknown (-1) dimensions of a shape. */
  function Unknowns(s: seq<int>): nat
    decreases |s|
  {
    if s == [] then 0 else (if s[0] == -1 then 1 else 0) + Unknowns(s[1..])
  }

  /** Product of the known dimensions of a shape. */
  function KnownProduct(s: seq<int>): int
    decreases |s|
  {
    if s == [] then 1 else (if s[0] == -1 then 1 else s[0]) * KnownProduct(s[1..])
  }

  /** The shape with its unknown dimension replaced by `v`. */
  function Fill(s: seq<int>, v: int): (r: seq<int>)
    ensures |r| == |s|
    ensures forall i :: 0 <= i < |s| ==> r[i] == if s[i] == -1 then v else s[i]
  {
    seq(|s|, i requires 0 <= i < |s| => if s[i] == -1 then v else s[i])
  }

  /** `a.reshape(shape)`: keeps the elements, infers at most one -1 dimension, fails when sizes disagree. */
  function Reshape(a: NdArray, shape: seq<int>): Result<NdArray, ArrayError> {
    if Unknowns(shape) > 1 then Failure(ReshapeFailed)
    else if Unknowns(shape) == 0 then
      if Product(shape) == |a.data| then Success(NdArray(shape, a.data)) else Failure(ReshapeFailed)
    else
      var known := KnownProduct(shape);
      if known == 0 || |a.data| % known != 0 then Failure(ReshapeFailed)
      else Success(NdArray(Fill(shape, |a.data| / known), a.data))
  }

  /** Some declared dimension other than -1 differs from the array's dimension. */
  predicate NeedsReshape(shape: seq<int>, actual: seq<int>) {
    exists i :: 0 <= i < |shape| && i < |actual| && shape[i] != -1 && shape[i] != actual[i]
  }

  /** The array has the declared rank and every declared size other than -1. */
  predicate Conforms(a: NdArray, shape: seq<int>) {
    |a.shape| == |shape| && forall i :: 0 <= i < |shape| ==> shape[i] == -1 || a.shape[i] == shape[i]
  }

  /** `Array[...].validate_type(val)`. */
  function ValidateType(decl: Declared, val: NdArray): Result<NdArray, ArrayError>
    requires ValidDeclaration(decl)
  {
    var shape := DeclaredShape(decl);
    var result := WithMinRank(val, |shape|);
    if |shape| != 0 && |shape| != |result.shape| then Failure(RankMismatch)
    else if NeedsReshape(shape, result.shape) then Reshape(result, shape)
    else Success(result)
  }

  lemma {:induction false} ProductOnes(k: nat, s: seq<int>)
    ensures Product(seq(k, _ => 1) + s) == Product(s)
    decreases k
  {
    if k == 0 {
      assert seq(k, _ => 1) + s == s;
    } else {
      assert (seq(k, _ => 1) + s)[0] == 1;
      assert (seq(k, _ => 1) + s)[1..] == seq(k - 1, _ => 1) + s;
      ProductOnes(k - 1, s);
    }
  }

  lemma {:induction false} ProductNonNegative(s: seq<int>)
    requires forall i :: 0 <= i < |s| ==> s[i] >= 0
    ensures Product(s) >= 0
    decreases |s|
  {
    if s != [] {
      ProductNonNegative(s[1..]);
    }
  }

  /** With one unknown dimension, filling it with `v` multiplies the known product by `v`. */
  lemma {:induction false} ProductFill(s: seq<int>, v: int)
    requires Unknowns(s) == 1
    ensures Product(Fill(s, v)) == KnownProduct(s) * v
    decreases |s|
  {
    assert Fill(s, v)[1..] == Fill(s[1..], v);
    if s[0] == -1 {
      KnownNoUnknowns(s[1..]);
      assert Fill(s[1..], v) == s[1..];
    } else {
      ProductFill(s[1..], v);
      calc {
        Product(Fill(s, v));
        s[0] * Product(Fill(s[1..], v));
        s[0] * (KnownProduct(s[1..]) * v);
        { MulAssoc(s[0], KnownProduct(s[1..]), v); }
        (s[0] * KnownProduct(s[1..])) * v;
      }
    }
  }

  lemma MulAssoc(a: int, b: int, c: int)
    ensures a * (b * c) == (a * b) * c
  {
  }

  lemma {:induction false} KnownNoUnknowns(s: seq<int>)
    requires Unknowns(s) == 0
    ensures KnownProduct(s) == Product(s) && forall i :: 0 <= i < |s| ==> s[i] != -1
    decreases |s|
  {
    if s != [] {
      KnownNoUnknowns(s[1..]);
    }
  }

  lemma {:induction false} KnownProductNonNegative(s: seq<int>)
    requires forall i :: 0 <= i < |s| ==> s[i] >= -1
    ensures KnownProduct(s) >= 0
    decreases |s|
  {
    if s != [] {
      KnownProductNonNegative(s[1..]);
    }
  }

  /** A reshape that succeeds keeps the elements and yields a valid array conforming to the shape. */
  lemma ReshapeConforms(a: NdArray, shape: seq<int>)
    requires ValidArray(a) && forall i :: 0 <= i < |shape| ==> shape[i] >= -1
    requires Reshape(a, shape).Success?
    ensures var b := Reshape(a, shape).value;
      ValidArray(b) && b.data == a.data && Conforms(b, shape)
  {
    if Unknowns(shape) == 0 {
      KnownNoUnknowns(shape);
    } else {
      var known := KnownProduct(shape);
      KnownProductNonNegative(shape);
      ProductFill(shape, |a.data| / known);
      assert known * (|a.data| / known) == |a.data|;
    }
  }

  /** With no declared shape the value passes through unchanged. */
  lemma ValidateTypeNoShape(decl: Declared, val: NdArray)
    requires ValidDeclaration(decl) && DeclaredShape(decl) == []
    ensures ValidateType(decl, val) == Success(val)
  {
  }

  /** With a declared shape, the rank assertion fails exactly when the value has a higher rank. */
  lemma ValidateTypeRank(decl: Declared, val: NdArray)
    requires ValidDeclaration(decl) && DeclaredShape(decl) != []
    ensures ValidateType(decl, val) == Failure(RankMismatch) <==> |val.shape| > |DeclaredShape(decl)|
  {
  }

  /**
   * A successful validation against a declared shape yields a valid array with the
   * same elements, the declared rank and every declared size other than -1.
   */
  lemma ValidateTypeConforms(decl: Declared, val: NdArray)
    requires ValidDeclaration(decl) && DeclaredShape(decl) != [] && ValidArray(val)
    requires ValidateType(decl, val).Success?
    ensures var r := ValidateType(decl, val).value;
      ValidArray(r) && r.data == val.data && Conforms(r, DeclaredShape(decl))
  {
    var shape := DeclaredShape(decl);
    var padded := WithMinRank(val, |shape|);
    if |val.shape| < |shape| {
      ProductOnes(|shape| - |val.shape|, val.shape);
    }
    assert ValidArray(padded);
    if NeedsReshape(shape, padded.shape) {
      ReshapeConforms(padded, shape);
    }
  }

  /** An array that already conforms to the declared shape is returned as it is: no reshape happens. */
  lemma ValidateTypeKeepsConforming(decl: Declared, val: NdArray)
    requires ValidDeclaration(decl) && Conforms(val, DeclaredShape(decl))
    ensures ValidateType(decl, val) == Success(val)
  {
  }

  /** Validating twice is validating once. */
  lemma ValidateTypeIdempotent(decl: Declared, val: NdArray)
    requires ValidDeclaration(decl) && ValidArray(val) && ValidateType(decl, val).Success?
    ensures ValidateType(decl, ValidateType(decl, val).value) == ValidateType(decl, val)
  {
    if DeclaredShape(decl) != [] {
      ValidateTypeConforms(decl, val);
    }
  }
}
