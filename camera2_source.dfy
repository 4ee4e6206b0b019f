/**
 * The geometry of the camera source: choosing preview and recording sizes,
 * deciding whether the sensor is rotated against the display, and the
 * rotation values handed to the pose detector and the recorder. Opening the
 * camera, sessions and threads are not modelled.
 */
module Camera {
  import opened Wrappers
  import opened ImageUtils

  /** What the size choices throw: an index into an empty array, an integer division by zero. */
  datatype CameraError = ArrayIndexOutOfBounds | DivisionByZero

  /** The display rotation constants of the platform. */
  const Rotation0: int := 0
  const Rotation90: int := 1
  const Rotation180: int := 2
  const Rotation270: int := 3

  const MaxPreviewWidth: int := 1920
  const MaxPreviewHeight: int := 1080

  // ---------------------------------------------------------------------------
  // Integer arithmetic of the source: division truncates toward zero.

  /** Integer quotient rounded toward zero. */
  function Quot(a: int, b: int): (q: int)
    requires b != 0
    ensures a >= 0 && b > 0 ==> q == a / b
  {
    if (a >= 0) == (b > 0) then
      (if a >= 0 then a else -a) / (if b > 0 then b else -b)
    else
      -((if a >= 0 then a else -a) / (if b > 0 then b else -b))
  }

  /** Integer remainder with the sign of the dividend. */
  function Rem(a: int, b: int): (r: int)
    requires b != 0
    ensures a == Quot(a, b) * b + r
    ensures a >= 0 ==> 0 <= r < (if b > 0 then b else -b)
    ensures a < 0 ==> -(if b > 0 then b else -b) < r <= 0
  {
    a - Quot(a, b) * b
  }

  // ---------------------------------------------------------------------------
  // The two orientation tables; a rotation not in a table reads as 0.

  function Orientations(rotation: int): (degrees: int)
    ensures degrees in {0, 90, 180, 270}
  {
    if rotation == Rotation0 then 90
    else if rotation == Rotation90 then 0
    else if rotation == Rotation180 then 270
    else if rotation == Rotation270 then 180
    else 0
  }

  function InverseOrientations(rotation: int): (degrees: int)
    ensures degrees in {0, 90, 180, 270}
  {
    if rotation == Rotation0 then 270
    else if rotation == Rotation90 then 180
    else if rotation == Rotation180 then 90
    else if rotation == Rotation270 then 0
    else 0
  }

  /** For each display rotation, the two tables are half a turn apart. */
  lemma InverseIsHalfTurn(rotation: int)
    requires Rotation0 <= rotation <= Rotation270
    ensures InverseOrientations(rotation) == (Orientations(rotation) + 180) % 360
  {
  }

  /** `ORIENTATIONS` undoes the display rotation and adds a quarter turn. */
  lemma OrientationsUndoDisplayRotation(rotation: int)
    requires Rotation0 <= rotation <= Rotation270
    ensures Orientations(rotation) == (450 - 90 * rotation) % 360
  {
  }

  // ---------------------------------------------------------------------------
  // SizesByArea

  function Area(s: Size): int
  {
    s.width * s.height
  }

  /** `SizesByArea.compare`: the larger of the two by area; on a tie, the second. */
  function SizesByAreaCompare(p0: Size, p1: Size): (r: Size)
    ensures r == p0 || r == p1
    ensures Area(r) >= Area(p0) && Area(r) >= Area(p1)
    ensures Area(p0) <= Area(p1) ==> r == p1
  {
    if Area(p0) > Area(p1) then p0 else p1
  }

  /** `reduce(SizesByArea::compare)`: folds the comparison from the left. */
  function ReduceByArea(sizes: seq<Size>): (r: Size)
    requires |sizes| > 0
    ensures r in sizes
    ensures forall s :: s in sizes ==> Area(s) <= Area(r)
  {
    if |sizes| == 1 then sizes[0]
    else
      var init := sizes[..|sizes| - 1];
      assert sizes == init + [sizes[|sizes| - 1]];
      SizesByAreaCompare(ReduceByArea(init), sizes[|sizes| - 1])
  }

  /** The reduction picks the LAST of the sizes with the largest area. */
  lemma {:induction false} ReduceByAreaIsLastLargest(sizes: seq<Size>)
    requires |sizes| > 0
    ensures exists k :: 0 <= k < |sizes| && sizes[k] == ReduceByArea(sizes) &&
                        forall j :: k < j < |sizes| ==> Area(sizes[j]) < Area(sizes[k])
  {
    var n := |sizes|;
    if n == 1 {
      assert sizes[0] == ReduceByArea(sizes);
    } else {
      var init := sizes[..n - 1];
      var acc := ReduceByArea(init);
      var last := sizes[n - 1];
      assert ReduceByArea(sizes) == SizesByAreaCompare(acc, last);
      if Area(acc) > Area(last) {
        ReduceByAreaIsLastLargest(init);
        var k :| 0 <= k < |init| && init[k] == acc &&
                 forall j :: k < j < |init| ==> Area(init[j]) < Area(init[k]);
        assert sizes[k] == acc == ReduceByArea(sizes);
        forall j | k < j < n
          ensures Area(sizes[j]) < Area(sizes[k])
        {
          if j < n - 1 {
            assert sizes[j] == init[j];
          }
        }
      } else {
        assert last == ReduceByArea(sizes);
        assert sizes[n - 1] == last;
      }
    }
  }

  // ---------------------------------------------------------------------------
  // chooseOptimalSize

  /** Within the maximum preview size. */
  predicate WithinMax(option: Size, maxWidth: int, maxHeight: int)
  {
    option.width <= maxWidth && option.height <= maxHeight
  }

  /** Within the maximum and of the requested aspect ratio (in integer arithmetic). */
  predicate Fits(option: Size, maxWidth: int, maxHeight: int, aspectRatio: Size)
  {
    && WithinMax(option, maxWidth, maxHeight)
    && aspectRatio.width != 0
    && option.height == Quot(option.width * aspectRatio.height, aspectRatio.width)
  }

  /** At least as large as the view in both dimensions. */
  predicate BigEnough(option: Size, textureViewWidth: int, textureViewHeight: int)
  {
    option.width >= textureViewWidth && option.height >= textureViewHeight
  }

  /** The fitting choices that are big enough, in order. */
  function BigEnoughSizes(choices: seq<Size>, textureViewWidth: int, textureViewHeight: int,
                          maxWidth: int, maxHeight: int, aspectRatio: Size): (r: seq<Size>)
    ensures forall s :: s in r <==>
              s in choices && Fits(s, maxWidth, maxHeight, aspectRatio) &&
              BigEnough(s, textureViewWidth, textureViewHeight)
  {
    if |choices| == 0 then []
    else
      var init := choices[..|choices| - 1];
      var option := choices[|choices| - 1];
      assert choices == init + [option];
      BigEnoughSizes(init, textureViewWidth, textureViewHeight, maxWidth, maxHeight, aspectRatio) +
      (if Fits(option, maxWidth, maxHeight, aspectRatio) && BigEnough(option, textureViewWidth, textureViewHeight)
       then [option] else [])
  }

  /** The fitting choices that are too small for the view, in order. */
  function NotBigEnoughSizes(choices: seq<Size>, textureViewWidth: int, textureViewHeight: int,
                             maxWidth: int, maxHeight: int, aspectRatio: Size): (r: seq<Size>)
    ensures forall s :: s in r <==>
              s in choices && Fits(s, maxWidth, maxHeight, aspectRatio) &&
              !BigEnough(s, textureViewWidth, textureViewHeight)
  {
    if |choices| == 0 then []
    else
      var init := choices[..|choices| - 1];
      var option := choices[|choices| - 1];
      assert choices == init + [option];
      NotBigEnoughSizes(init, textureViewWidth, textureViewHeight, maxWidth, maxHeight, aspectRatio) +
      (if Fits(option, maxWidth, maxHeight, aspectRatio) && !BigEnough(option, textureViewWidth, textureViewHeight)
       then [option] else [])
  }

  /**
   * The outcome of `chooseOptimalSize`: a division by zero when the aspect
   * ratio has width 0 and some choice is within the maximum; otherwise the
   * largest big-enough fitting size, else the largest fitting size, else the
   * first choice (which throws when there is none).
   */
  function OptimalSize(choices: seq<Size>, textureViewWidth: int, textureViewHeight: int,
                       maxWidth: int, maxHeight: int, aspectRatio: Size): (r: Result<Size, CameraError>)
    ensures r.Success? ==> r.value in choices
    ensures r.Failure? ==> (r.error == DivisionByZero && aspectRatio.width == 0) || |choices| == 0
  {
    if aspectRatio.width == 0 && exists s :: s in choices && WithinMax(s, maxWidth, maxHeight) then
      Failure(DivisionByZero)
    else
      var big := BigEnoughSizes(choices, textureViewWidth, textureViewHeight, maxWidth, maxHeight, aspectRatio);
      var small := NotBigEnoughSizes(choices, textureViewWidth, textureViewHeight, maxWidth, maxHeight, aspectRatio);
      if |big| > 0 then Success(ReduceByArea(big))
      else if |small| > 0 then Success(ReduceByArea(small))
      else if |choices| > 0 then Success(choices[0])
      else Failure(ArrayIndexOutOfBounds)
  }

  /**
   * What the choice means: when some fitting size is big enough, the answer
   * is a big-enough fitting size no smaller (by area) than any other; when
   * only small ones fit, the largest of those; when none fits, the first
   * choice. It fails only on a zero-width aspect ratio or an empty array.
   */
  lemma OptimalSizeIsLargestFitting(choices: seq<Size>, textureViewWidth: int, textureViewHeight: int,
                                    maxWidth: int, maxHeight: int, aspectRatio: Size)
    ensures var r := OptimalSize(choices, textureViewWidth, textureViewHeight, maxWidth, maxHeight, aspectRatio);
            && (r == Failure(DivisionByZero) <==>
                  aspectRatio.width == 0 && exists s :: s in choices && WithinMax(s, maxWidth, maxHeight))
            && (r == Failure(ArrayIndexOutOfBounds) <==> |choices| == 0)
            && (r.Success? ==> r.value in choices)
            && (r.Success? && (exists s :: s in choices && Fits(s, maxWidth, maxHeight, aspectRatio) &&
                                           BigEnough(s, textureViewWidth, textureViewHeight)) ==>
                  && Fits(r.value, maxWidth, maxHeight, aspectRatio)
                  && BigEnough(r.value, textureViewWidth, textureViewHeight)
                  && forall s :: (s in choices && Fits(s, maxWidth, maxHeight, aspectRatio) &&
                                  BigEnough(s, textureViewWidth, textureViewHeight)) ==> Area(s) <= Area(r.value))
            && (r.Success? && (forall s :: s in choices && Fits(s, maxWidth, maxHeight, aspectRatio) ==>
                                          !BigEnough(s, textureViewWidth, textureViewHeight)) &&
                (exists s :: s in choices && Fits(s, maxWidth, maxHeight, aspectRatio)) ==>
                  && Fits(r.value, maxWidth, maxHeight, aspectRatio)
                  && forall s :: s in choices && Fits(s, maxWidth, maxHeight, aspectRatio) ==> Area(s) <= Area(r.value))
            && (r.Success? && (forall s :: s in choices ==> !Fits(s, maxWidth, maxHeight, aspectRatio)) ==>
                  r.value == choices[0])
  {
    var big := BigEnoughSizes(choices, textureViewWidth, textureViewHeight, maxWidth, maxHeight, aspectRatio);
    var small := NotBigEnoughSizes(choices, textureViewWidth, textureViewHeight, maxWidth, maxHeight, aspectRatio);
    if |big| > 0 {
      assert big[0] in big;
    } else if |small| > 0 {
      assert small[0] in small;
    }
    if |choices| > 0 {
      assert choices[0] in choices;
    }
  }

  /** Extending the scanned prefix by one choice extends each list by at most that choice. */
  lemma SizesStep(choices: seq<Size>, i: int, textureViewWidth: int, textureViewHeight: int,
                  maxWidth: int, maxHeight: int, aspectRatio: Size)
    requires 0 <= i < |choices|
    ensures var option := choices[i];
            var fits := Fits(option, maxWidth, maxHeight, aspectRatio);
            var big := BigEnough(option, textureViewWidth, textureViewHeight);
            && BigEnoughSizes(choices[..i + 1], textureViewWidth, textureViewHeight, maxWidth, maxHeight, aspectRatio) ==
               BigEnoughSizes(choices[..i], textureViewWidth, textureViewHeight, maxWidth, maxHeight, aspectRatio) +
               (if fits && big then [option] else [])
            && NotBigEnoughSizes(choices[..i + 1], textureViewWidth, textureViewHeight, maxWidth, maxHeight, aspectRatio) ==
               NotBigEnoughSizes(choices[..i], textureViewWidth, textureViewHeight, maxWidth, maxHeight, aspectRatio) +
               (if fits && !big then [option] else [])
  {
    assert choices[..i + 1][..i] == choices[..i];
  }

  /**
   * `chooseOptimalSize`: one pass over the choices sorting the fitting ones
   * into big-enough and too-small lists, then the largest of the first
   * non-empty list, else the first choice.
   */
  method ChooseOptimalSize(choices: seq<Size>, textureViewWidth: int, textureViewHeight: int,
                           maxWidth: int, maxHeight: int, aspectRatio: Size) returns (result: Result<Size, CameraError>)
    ensures result == OptimalSize(choices, textureViewWidth, textureViewHeight, maxWidth, maxHeight, aspectRatio)
  {
    var bigEnoughSizes: seq<Size> := [];
    var notBigEnoughSizes: seq<Size> := [];
    for i := 0 to |choices|
      invariant bigEnoughSizes ==
                BigEnoughSizes(choices[..i], textureViewWidth, textureViewHeight, maxWidth, maxHeight, aspectRatio)
      invariant notBigEnoughSizes ==
                NotBigEnoughSizes(choices[..i], textureViewWidth, textureViewHeight, maxWidth, maxHeight, aspectRatio)
      invariant aspectRatio.width == 0 ==> forall k :: 0 <= k < i ==> !WithinMax(choices[k], maxWidth, maxHeight)
    {
      var option := choices[i];
      SizesStep(choices, i, textureViewWidth, textureViewHeight, maxWidth, maxHeight, aspectRatio);
      if option.width <= maxWidth && option.height <= maxHeight {
        if aspectRatio.width == 0 {
          assert option in choices;
          return Failure(DivisionByZero);
        }
        if option.height == Quot(option.width * aspectRatio.height, aspectRatio.width) {
          if option.width >= textureViewWidth && option.height >= textureViewHeight {
            bigEnoughSizes := bigEnoughSizes + [option];
          } else {
            notBigEnoughSizes := notBigEnoughSizes + [option];
          }
        }
      }
    }
    assert choices[..|choices|] == choices;

    if |bigEnoughSizes| > 0 {
      return Success(ReduceByArea(bigEnoughSizes));
    } else if |notBigEnoughSizes| > 0 {
      return Success(ReduceByArea(notBigEnoughSizes));
    } else if |choices| == 0 {
      return Failure(ArrayIndexOutOfBounds);
    } else {
      return Success(choices[0]);
    }
  }

  // ---------------------------------------------------------------------------
  // chooseVideoSize

  /** A 16:9 size in integer arithmetic: `width == height * 16 / 9`. */
  predicate IsWide(size: Size)
  {
    size.width == Quot(size.height * 16, 9)
  }

  /** `chooseVideoSize`: the first 16:9 choice, else the first choice; an empty array throws. */
  method ChooseVideoSize(choices: seq<Size>) returns (result: Result<Size, CameraError>)
    ensures result.Failure? <==> |choices| == 0
    ensures result.Success? ==> result.value in choices
    ensures (exists k :: 0 <= k < |choices| && IsWide(choices[k])) ==>
              exists k :: 0 <= k < |choices| && IsWide(choices[k]) && result == Success(choices[k]) &&
                          forall j :: 0 <= j < k ==> !IsWide(choices[j])
    ensures (forall k :: 0 <= k < |choices| ==> !IsWide(choices[k])) && |choices| > 0 ==>
              result == Success(choices[0])
  {
    for i := 0 to |choices|
      invariant forall j :: 0 <= j < i ==> !IsWide(choices[j])
    {
      var size := choices[i];
      if size.width == Quot(size.height * 16, 9) {
        return Success(size);
      }
    }
    if |choices| == 0 {
      return Failure(ArrayIndexOutOfBounds);
    }
    return Success(choices[0]);
  }

  // ---------------------------------------------------------------------------
  // Orientation state of the camera source

  /**
   * The sensor is mounted at right angles to the display: a portrait display
   * (rotation 0 or 180) with a sensor at 90 or 270 degrees, or a landscape
   * display with a sensor at 0 or 180 degrees.
   */
  predicate SwapNeeded(displayOrientation: int, sensorOrientation: int)
    ensures SwapNeeded(displayOrientation, sensorOrientation) ==>
              Rotation0 <= displayOrientation <= Rotation270 && sensorOrientation in {0, 90, 180, 270}
  {
    || ((displayOrientation == Rotation0 || displayOrientation == Rotation180) &&
        (sensorOrientation == 90 || sensorOrientation == 270))
    || ((displayOrientation == Rotation90 || displayOrientation == Rotation270) &&
        (sensorOrientation == 0 || sensorOrientation == 180))
  }

  /** For the usual rotations, a swap is needed exactly when the two angles differ by an odd number of quarter turns. */
  lemma SwapNeededIsQuarterTurn(displayOrientation: int, sensorOrientation: int)
    requires Rotation0 <= displayOrientation <= Rotation270
    requires sensorOrientation in {0, 90, 180, 270}
    ensures SwapNeeded(displayOrientation, sensorOrientation) <==>
              (90 * displayOrientation + sensorOrientation) % 180 == 90
  {
  }

  /** The preview dimensions derived from the view size, the screen size and the swap. */
  datatype PreviewDimensions = PreviewDimensions(rotatedWidth: int, rotatedHeight: int, maxWidth: int, maxHeight: int)

  function Min(a: int, b: int): int
  {
    if a < b then a else b
  }

  /**
   * The view and screen sizes in the sensor's frame: swapped when the sensor
   * is at right angles to the display, and the maximum capped at 1920x1080.
   */
  function ComputePreviewDimensions(swapped: bool, width: int, height: int, screenX: int, screenY: int)
    : (d: PreviewDimensions)
    ensures d.maxWidth <= MaxPreviewWidth && d.maxHeight <= MaxPreviewHeight
    ensures !swapped ==> d.rotatedWidth == width && d.rotatedHeight == height &&
                         d.maxWidth == Min(screenX, MaxPreviewWidth) && d.maxHeight == Min(screenY, MaxPreviewHeight)
    ensures swapped ==> d.rotatedWidth == height && d.rotatedHeight == width &&
                        d.maxWidth == Min(screenY, MaxPreviewWidth) && d.maxHeight == Min(screenX, MaxPreviewHeight)
  {
    var rotatedPreviewWidth := if swapped then height else width;
    var rotatedPreviewHeight := if swapped then width else height;
    var maxPreviewWidth := if swapped then screenY else screenX;
    var maxPreviewHeight := if swapped then screenX else screenY;
    PreviewDimensions(rotatedPreviewWidth, rotatedPreviewHeight,
                      Min(maxPreviewWidth, MaxPreviewWidth), Min(maxPreviewHeight, MaxPreviewHeight))
  }

  /** A swapped computation is the unswapped one with width and height exchanged in the input. */
  lemma SwapExchangesDimensions(width: int, height: int, screenX: int, screenY: int)
    ensures var s := ComputePreviewDimensions(true, width, height, screenX, screenY);
            var u := ComputePreviewDimensions(false, height, width, screenY, screenX);
            s == u
  {
  }

  class Camera2Source {
    /** The sensor's mounting angle in degrees; -1 until read from the camera. */
    var sensorOrientation: int
    /** The display rotation constant passed to `start`; -1 until then. */
    var displayOrientation: int
    /** Set once the sensor is found at right angles to the display; never cleared. */
    var isSwappedDimensions: bool

    constructor ()
      ensures sensorOrientation == -1 && displayOrientation == -1 && !isSwappedDimensions
    {
      sensorOrientation := -1;
      displayOrientation := -1;
      isSwappedDimensions := false;
    }

    /** `start` records the display rotation (every call, even when already started). */
    method Start(displayOrientation: int)
      modifies this`displayOrientation
      ensures this.displayOrientation == displayOrientation
    {
      this.displayOrientation := displayOrientation;
    }

    /**
     * The sensor part of opening the camera: when the characteristics report
     * a sensor orientation it is recorded, and the dimensions are marked
     * swapped if it is at right angles to the display.
     */
    method ApplySensorOrientation(reported: Option<int>)
      modifies this`sensorOrientation, this`isSwappedDimensions
      ensures reported.None? ==> sensorOrientation == old(sensorOrientation) &&
                                 isSwappedDimensions == old(isSwappedDimensions)
      ensures reported.Some? ==> sensorOrientation == reported.value &&
                                 isSwappedDimensions == (old(isSwappedDimensions) || SwapNeeded(displayOrientation, reported.value))
    {
      if reported.Some? {
        sensorOrientation := reported.value;
        if displayOrientation == Rotation0 || displayOrientation == Rotation180 {
          if sensorOrientation == 90 || sensorOrientation == 270 {
            isSwappedDimensions := true;
          }
        } else if displayOrientation == Rotation90 || displayOrientation == Rotation270 {
          if sensorOrientation == 0 || sensorOrientation == 180 {
            isSwappedDimensions := true;
          }
        }
      }
    }

    /**
     * `getDetectorOrientation`: the sensor angle, turned half a turn when the
     * dimensions are swapped; an angle that is not a multiple of 90 in
     * [0, 360] gives 90.
     */
    function GetDetectorOrientation(sensorOrientation: int): (degrees: int)
      reads this
      ensures degrees in {0, 90, 180, 270}
      ensures sensorOrientation in {0, 90, 180, 270, 360} ==>
                degrees == (sensorOrientation + (if isSwappedDimensions then 180 else 0)) % 360
      ensures sensorOrientation !in {0, 90, 180, 270, 360} ==> degrees == 90
    {
      if sensorOrientation == 0 || sensorOrientation == 360 then (if isSwappedDimensions then 180 else 0)
      else if sensorOrientation == 90 then (if isSwappedDimensions then 270 else 90)
      else if sensorOrientation == 180 then (if isSwappedDimensions then 0 else 180)
      else if sensorOrientation == 270 then (if isSwappedDimensions then 90 else 270)
      else 90
    }

    /** `getOrientation`: the table entry plus the sensor angle plus 270, remainder 360. */
    function GetOrientation(rotation: int): (degrees: int)
      reads this
      ensures -360 < degrees < 360
      ensures Orientations(rotation) + sensorOrientation + 270 >= 0 ==> 0 <= degrees < 360
    {
      Rem(Orientations(rotation) + sensorOrientation + 270, 360)
    }
  }

  /**
   * Once the sensor angle is known, the orientation for display rotation r is
   * the sensor angle minus r quarter turns, normalised to [0, 360).
   */
  lemma GetOrientationIsSensorMinusRotation(source: Camera2Source, rotation: int)
    requires Rotation0 <= rotation <= Rotation270
    requires source.sensorOrientation in {0, 90, 180, 270}
    ensures source.GetOrientation(rotation) == (source.sensorOrientation - 90 * rotation + 360) % 360
  {
  }

  /** Before the sensor angle is read (-1), the orientation is off by one degree from every quarter turn. */
  lemma GetOrientationBeforeSensorKnown(source: Camera2Source, rotation: int)
    requires source.sensorOrientation == -1
    ensures source.GetOrientation(rotation) % 90 == 89
  {
  }
}
