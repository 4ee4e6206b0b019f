/**
 * Frame-buffer helpers of the camera pipeline: the quarter-resolution luma
 * subsampling of an NV21 frame, the conversion between the two size types,
 * and the assembly of an NV21 buffer from the planes of a YUV_420_888 image.
 */
module ImageUtils {
  import opened Wrappers

  /** The size type of the vision library (width, height in pixels). */
  datatype Size = Size(width: int, height: int)

  /** The platform's own size type, as reported by the camera. */
  datatype PlatformSize = PlatformSize(width: int, height: int)

  /** A plane of a camera image: the bytes remaining in its buffer. */
  datatype Plane = Plane(buffer: seq<bv8>)

  /** What the array accesses throw. */
  datatype ImageError = IndexOutOfBounds

  // ---------------------------------------------------------------------------
  // quarterNV21

  /** Length of the output array: `iWidth/4 * iHeight/4 * 3/2`, evaluated left to right. */
  function QuarterLength(iWidth: nat, iHeight: nat): nat
  {
    (iWidth / 4 * iHeight / 4 * 3) / 2
  }

  /** How many of 0, 4, 8, ... lie below `bound`. */
  function Steps(bound: nat): (n: nat)
    ensures bound <= 4 * n && (n >= 1 ==> 4 * (n - 1) < bound)
  {
    (bound + 3) / 4
  }

  /** Where the sample of grid cell (r, c) is written, in a grid `cols` samples wide. */
  function OutIndex(r: nat, c: nat, cols: nat): nat
  {
    r * cols + c
  }

  /** Where the sample of grid cell (r, c) is read from: row `4r`, column `4c`. */
  function InIndex(r: nat, c: nat, iWidth: nat): nat
  {
    4 * r * iWidth + 4 * c
  }

  /** A byte of `data`, or 0 past its end (where the source would throw). */
  function At(data: seq<bv8>, k: nat): bv8
  {
    if k < |data| then data[k] else 0
  }

  /** The first `col` samples of the row starting at `base`: bytes base, base+4, base+8, ... */
  function RowSamples(data: seq<bv8>, base: nat, col: nat): (s: seq<bv8>)
    ensures |s| == col
  {
    if col == 0 then [] else RowSamples(data, base, col - 1) + [At(data, base + 4 * (col - 1))]
  }

  /** The samples of the first `row` sampled rows, `cols` samples each, row after row. */
  function GridSamples(data: seq<bv8>, iWidth: nat, cols: nat, row: nat): (s: seq<bv8>)
    ensures |s| == row * cols
  {
    if row == 0 then []
    else GridSamples(data, iWidth, cols, row - 1) + RowSamples(data, 4 * (row - 1) * iWidth, cols)
  }

  lemma RowSamplesAt(data: seq<bv8>, base: nat, col: nat, c: nat)
    requires c < col
    ensures RowSamples(data, base, col)[c] == At(data, base + 4 * c)
  {
    if c < col - 1 {
      RowSamplesAt(data, base, col - 1, c);
    }
  }

  /** The sample of grid cell (r, c) sits at `OutIndex(r, c)` and is the byte at `InIndex(r, c)`. */
  lemma {:induction false} GridSamplesAt(data: seq<bv8>, iWidth: nat, cols: nat, row: nat, r: nat, c: nat)
    requires r < row && c < cols
    ensures OutIndex(r, c, cols) < |GridSamples(data, iWidth, cols, row)|
    ensures GridSamples(data, iWidth, cols, row)[OutIndex(r, c, cols)] == At(data, InIndex(r, c, iWidth))
  {
    if r < row - 1 {
      GridSamplesAt(data, iWidth, cols, row - 1, r, c);
      assert OutIndex(r, c, cols) < (row - 1) * cols;
    } else {
      assert |GridSamples(data, iWidth, cols, row - 1)| == r * cols;
      RowSamplesAt(data, 4 * r * iWidth, cols, c);
    }
  }

  lemma MulMonotone(a: nat, b: nat, k: nat)
    requires a <= b
    ensures a * k <= b * k
  {
  }

  /**
   * The inner loop of `quarterNV21`: the bytes `i * iWidth + j` for j = 0, 4,
   * ... below `colBound`, written from output position `start` on. It stops
   * at the first write or read out of bounds.
   */
  method SampleRow(data: array<bv8>, yuv: array<bv8>, iWidth: nat, colBound: nat, i: nat, start: nat)
    returns (ok: bool, index: nat)
    requires data != yuv && start <= yuv.Length
    requires forall k :: start <= k < yuv.Length ==> yuv[k] == 0
    modifies yuv
    ensures ok <==> start + Steps(colBound) <= yuv.Length &&
                    (Steps(colBound) >= 1 ==> i * iWidth + 4 * (Steps(colBound) - 1) < data.Length)
    ensures ok ==> index == start + Steps(colBound)
    ensures ok ==> yuv[..index] == old(yuv[..start]) + RowSamples(data[..], i * iWidth, Steps(colBound))
    ensures ok ==> forall k :: index <= k < yuv.Length ==> yuv[k] == 0
  {
    var cols := Steps(colBound);
    index := start;
    var j := 0;
    ghost var col := 0;
    while j < colBound
      invariant j == 4 * col && col <= cols
      invariant index == start + col <= yuv.Length
      invariant col >= 1 ==> i * iWidth + 4 * (col - 1) < data.Length
      invariant yuv[..index] == old(yuv[..start]) + RowSamples(data[..], i * iWidth, col)
      invariant forall k :: index <= k < yuv.Length ==> yuv[k] == 0
    {
      if index >= yuv.Length || i * iWidth + j >= data.Length {
        return false, index;
      }
      yuv[index] := data[i * iWidth + j];
      assert yuv[..index + 1] == yuv[..index] + [yuv[index]];
      index := index + 1;
      j := j + 4;
      col := col + 1;
    }
    ok := true;
  }

  /** The grid of samples fits the output and every read lies inside `data`. */
  predicate GridFits(dataLength: nat, outLength: nat, iWidth: nat, rows: nat, cols: nat)
  {
    && rows * cols <= outLength
    && (rows >= 1 && cols >= 1 ==> InIndex(rows - 1, cols - 1, iWidth) < dataLength)
  }

  /**
   * The two nested loops of `quarterNV21`, rows i = 0, 4, ... below
   * `rowBound` and columns j = 0, 4, ... below `colBound`, copying byte
   * `i * iWidth + j` to the next free output position.
   */
  method SampleGrid(data: array<bv8>, yuv: array<bv8>, iWidth: nat, rowBound: nat, colBound: nat) returns (ok: bool)
    requires data != yuv
    requires forall k :: 0 <= k < yuv.Length ==> yuv[k] == 0
    modifies yuv
    ensures ok <==> GridFits(data.Length, yuv.Length, iWidth, Steps(rowBound), Steps(colBound))
    ensures ok ==> yuv[..Steps(rowBound) * Steps(colBound)] ==
                   GridSamples(data[..], iWidth, Steps(colBound), Steps(rowBound))
    ensures ok ==> forall k :: Steps(rowBound) * Steps(colBound) <= k < yuv.Length ==> yuv[k] == 0
  {
    var cols := Steps(colBound);
    var rows := Steps(rowBound);
    var index := 0;
    var i := 0;
    ghost var row := 0;
    while i < rowBound
      invariant i == 4 * row && row <= rows
      invariant index == row * cols <= yuv.Length
      invariant row >= 1 && cols >= 1 ==> InIndex(row - 1, cols - 1, iWidth) < data.Length
      invariant yuv[..index] == GridSamples(data[..], iWidth, cols, row)
      invariant forall k :: index <= k < yuv.Length ==> yuv[k] == 0
    {
      var rowOk;
      rowOk, index := SampleRow(data, yuv, iWidth, colBound, i, index);
      if !rowOk {
        if row * cols + cols > yuv.Length {
          MulMonotone(row + 1, rows, cols);
        } else {
          MulMonotone(4 * row, 4 * (rows - 1), iWidth);
        }
        return false;
      }
      assert i * iWidth == 4 * row * iWidth;
      assert index == (row + 1) * cols;
      i := i + 4;
      row := row + 1;
    }
    assert row == rows;
    return true;
  }

  /**
   * How many values the inclusive range `0..bound step 4` visits: the rows
   * (bound `iHeight`) and the columns (bound `iWidth`) that `quarterNV21` samples.
   */
  function InclusiveSteps(bound: nat): (n: nat)
    ensures n == bound / 4 + 1
  {
    Steps(bound + 1)
  }

  /**
   * `quarterNV21`: copies every fourth byte of every fourth row into a new
   * array, rows 0, 4, ... through `iHeight` and columns 0, 4, ... through
   * `iWidth` inclusive; the rest of the array stays zero. A write past the
   * end of the output or a read past the end of `data` throws.
   */
  method QuarterNV21(data: array<bv8>, iWidth: nat, iHeight: nat) returns (result: Result<array<bv8>, ImageError>)
    ensures result.Failure? <==>
              !GridFits(data.Length, QuarterLength(iWidth, iHeight), iWidth, InclusiveSteps(iHeight), InclusiveSteps(iWidth))
    ensures result.Success? ==>
              var count := InclusiveSteps(iHeight) * InclusiveSteps(iWidth);
              && result.value.Length == QuarterLength(iWidth, iHeight)
              && result.value[..count] == GridSamples(data[..], iWidth, InclusiveSteps(iWidth), InclusiveSteps(iHeight))
              && (forall k :: count <= k < result.value.Length ==> result.value[k] == 0)
  {
    var yuv := new bv8[QuarterLength(iWidth, iHeight)](_ => 0);
    var ok := SampleGrid(data, yuv, iWidth, iHeight + 1, iWidth + 1);
    if !ok {
      return Failure(IndexOutOfBounds);
    }
    return Success(yuv);
  }

  /**
   * The inclusive ranges of `quarterNV21` sample one row too many: when the
   * height is a multiple of 4, the last sampled row starts at byte
   * `iHeight * iWidth`, past the luma plane, so the last samples are taken
   * from the chroma plane of the NV21 frame.
   */
  lemma QuarterNV21ReadsPastLumaPlane(iWidth: nat, iHeight: nat)
    requires iHeight % 4 == 0
    ensures InIndex(InclusiveSteps(iHeight) - 1, InclusiveSteps(iWidth) - 1, iWidth) >= iWidth * iHeight
  {
    assert 4 * (InclusiveSteps(iHeight) - 1) == iHeight;
  }

  /** A 640x480 preview frame: the loops read byte 307840, past the 307200-byte luma plane, and do not throw. */
  lemma QuarterNV21On640x480()
    ensures InclusiveSteps(480) * InclusiveSteps(640) == 19481 <= QuarterLength(640, 480) == 28800
    ensures InIndex(InclusiveSteps(480) - 1, InclusiveSteps(640) - 1, 640) == 307840 > 640 * 480
  {
  }

  /** A 4x4 frame: four samples for a one-byte output, so `quarterNV21` throws whatever the data. */
  lemma QuarterNV21On4x4(dataLength: nat)
    ensures QuarterLength(4, 4) == 1 && InclusiveSteps(4) * InclusiveSteps(4) == 4
    ensures !GridFits(dataLength, QuarterLength(4, 4), 4, InclusiveSteps(4), InclusiveSteps(4))
  {
  }

  /**
   * `quarterNV21` with the half-open ranges `0 until iHeight` and
   * `0 until iWidth`: one luma byte per 4x4 block, all from the luma plane.
   */
  method QuarterLuma(data: array<bv8>, iWidth: nat, iHeight: nat) returns (result: Result<array<bv8>, ImageError>)
    ensures result.Failure? <==>
              !GridFits(data.Length, QuarterLength(iWidth, iHeight), iWidth, Steps(iHeight), Steps(iWidth))
    ensures result.Success? ==>
              var count := Steps(iHeight) * Steps(iWidth);
              && result.value.Length == QuarterLength(iWidth, iHeight)
              && result.value[..count] == GridSamples(data[..], iWidth, Steps(iWidth), Steps(iHeight))
              && (forall k :: count <= k < result.value.Length ==> result.value[k] == 0)
  {
    var yuv := new bv8[QuarterLength(iWidth, iHeight)](_ => 0);
    var ok := SampleGrid(data, yuv, iWidth, iHeight, iWidth);
    if !ok {
      return Failure(IndexOutOfBounds);
    }
    return Success(yuv);
  }

  /** With the half-open ranges every read lies inside the luma plane, in its own row. */
  lemma QuarterLumaReadsOnlyLuma(iWidth: nat, iHeight: nat, r: nat, c: nat)
    requires r < Steps(iHeight) && c < Steps(iWidth)
    ensures 4 * c < iWidth
    ensures InIndex(r, c, iWidth) < iWidth * iHeight
  {
    MulMonotone(4 * r + 1, iHeight, iWidth);
  }

  /** For frame sizes that are multiples of 4 the samples fit the output, and a luma-sized frame is enough. */
  lemma QuarterLumaFits(dataLength: nat, iWidth: nat, iHeight: nat)
    requires iWidth % 4 == 0 && iHeight % 4 == 0
    requires dataLength >= iWidth * iHeight
    ensures GridFits(dataLength, QuarterLength(iWidth, iHeight), iWidth, Steps(iHeight), Steps(iWidth))
  {
    var n := (iWidth / 4) * (iHeight / 4);
    assert iWidth / 4 * iHeight == n * 4;
    assert Steps(iHeight) * Steps(iWidth) == n;
    if Steps(iHeight) >= 1 && Steps(iWidth) >= 1 {
      QuarterLumaReadsOnlyLuma(iWidth, iHeight, Steps(iHeight) - 1, Steps(iWidth) - 1);
    }
  }

  // ---------------------------------------------------------------------------
  // sizeToImageSize

  /** `sizeToImageSize`: the same sizes, in order, as the vision library's type. */
  method SizeToImageSize(sizes: seq<PlatformSize>) returns (imageSizes: seq<Size>)
    ensures |imageSizes| == |sizes|
    ensures forall i :: 0 <= i < |sizes| ==>
              imageSizes[i].width == sizes[i].width && imageSizes[i].height == sizes[i].height
  {
    imageSizes := [];
    for i := 0 to |sizes|
      invariant |imageSizes| == i
      invariant forall k :: 0 <= k < i ==>
                  imageSizes[k].width == sizes[k].width && imageSizes[k].height == sizes[k].height
    {
      imageSizes := imageSizes + [Size(sizes[i].width, sizes[i].height)];
    }
  }

  // ---------------------------------------------------------------------------
  // convertYUV420888ToNV21

  /**
   * `convertYUV420888ToNV21`: a new array holding the remaining bytes of the
   * Y plane followed by those of plane 2 (the interleaved V/U plane); plane 1
   * is not read. An image with fewer than three planes throws.
   */
  method ConvertYUV420888ToNV21(planes: seq<Plane>) returns (result: Result<array<bv8>, ImageError>)
    ensures result.Failure? <==> |planes| < 3
    ensures result.Success? ==> result.value[..] == planes[0].buffer + planes[2].buffer
  {
    if |planes| < 3 {
      return Failure(IndexOutOfBounds);
    }
    var y := planes[0].buffer;
    var cb := planes[2].buffer;
    var yBufferSize := |y|;
    var cbBufferSize := |cb|;
    var data := new bv8[yBufferSize + cbBufferSize];
    forall k | 0 <= k < yBufferSize {
      data[k] := y[k];
    }
    forall k | 0 <= k < cbBufferSize {
      data[yBufferSize + k] := cb[k];
    }
    assert data[..] == y + cb;
    return Success(data);
  }
}
