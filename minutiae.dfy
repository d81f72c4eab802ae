/**
 * Fingerprint features for the fuzzy extractor (`finger_bio_utils.py`): minutiae are
 * found on the thinned (skeleton) image by counting white neighbours, and their
 * coordinates become a fixed-length descriptor. The thinning itself (OpenCV,
 * scikit-image) is not part of this model; the skeleton image is an input.
 */
module FingerBioUtils {
  import opened Wrappers
  import opened Octets

  /** A grey-level image as rows of pixels; a skeleton image holds 0 (black) and 255 (white). */
  type Image = seq<seq<byte>>

  function Width(img: Image): nat
  {
    if |img| == 0 then 0 else |img[0]|
  }

  /** The image is a proper two-dimensional array. */
  predicate Rectangular(img: Image)
  {
    forall r | 0 <= r < |img| :: |img[r]| == Width(img)
  }

  /** The pixel at (row, column), reading the one-pixel zero border around the image as black. */
  function Pixel(img: Image, row: int, col: int): byte
  {
    if 0 <= row < |img| && 0 <= col < |img[row]| then img[row][col] else 0
  }

  /** The sum of the eight neighbours (the 3x3 kernel with its centre removed). */
  function NeighbourSum(img: Image, row: int, col: int): nat
  {
    Pixel(img, row - 1, col - 1) + Pixel(img, row - 1, col) + Pixel(img, row - 1, col + 1)
    + Pixel(img, row, col - 1) + Pixel(img, row, col + 1)
    + Pixel(img, row + 1, col - 1) + Pixel(img, row + 1, col) + Pixel(img, row + 1, col + 1)
  }

  /** A white pixel whose neighbour sum divided by 255 is 1 (ridge ending) or 3 (bifurcation). */
  predicate IsMinutia(img: Image, row: int, col: int)
  {
    var crossingNumber := NeighbourSum(img, row, col) / 255;
    Pixel(img, row, col) == 255 && (crossingNumber == 1 || crossingNumber == 3)
  }

  /** A reported point: (column, row), zero-based. */
  type Point = (int, int)

  /** The minutiae of row `row` among its first `cols` columns, left to right. */
  function RowPoints(img: Image, row: int, cols: nat): seq<Point>
  {
    if cols == 0 then []
    else RowPoints(img, row, cols - 1) + (if IsMinutia(img, row, cols - 1) then [(cols - 1, row)] else [])
  }

  /** The minutiae of the first `rows` rows, in row-major order. */
  function Minutiae(img: Image, rows: nat): seq<Point>
  {
    if rows == 0 then [] else Minutiae(img, rows - 1) + RowPoints(img, rows - 1, Width(img))
  }

  /**
   * `extract_minutiae_points`: scans the image row by row. The source scans the padded
   * image from index 1 and reports (j - 1, i - 1); here indices are zero-based and the
   * padding is read by Pixel.
   */
  method ExtractMinutiaePoints(img: Image) returns (points: seq<Point>)
    requires Rectangular(img)
    ensures points == Minutiae(img, |img|)
  {
    points := [];
    var rows, cols := |img|, Width(img);
    for i := 0 to rows
      invariant points == Minutiae(img, i)
    {
      for j := 0 to cols
        invariant points == Minutiae(img, i) + RowPoints(img, i, j)
      {
        if img[i][j] == 255 {
          var crossingNumber := NeighbourSum(img, i, j) / 255;
          if crossingNumber == 1 {
            points := points + [(j, i)];      // ridge ending
          } else if crossingNumber == 3 {
            points := points + [(j, i)];      // bifurcation
          }
        }
      }
    }
  }

  lemma {:induction false} RowPointsMembership(img: Image, row: int, cols: nat, p: Point)
    ensures p in RowPoints(img, row, cols) <==> p.1 == row && 0 <= p.0 < cols && IsMinutia(img, row, p.0)
  {
    if cols > 0 {
      RowPointsMembership(img, row, cols - 1, p);
    }
  }

  lemma {:induction false} MinutiaeMembership(img: Image, rows: nat, p: Point)
    ensures p in Minutiae(img, rows) <==> 0 <= p.1 < rows && 0 <= p.0 < Width(img) && IsMinutia(img, p.1, p.0)
  {
    if rows > 0 {
      MinutiaeMembership(img, rows - 1, p);
      RowPointsMembership(img, rows - 1, Width(img), p);
    }
  }

  /** Exactly the white ridge endings and bifurcations inside the image are reported. */
  lemma MinutiaeMeaning(img: Image, p: Point)
    ensures p in Minutiae(img, |img|) <==>
      (0 <= p.1 < |img| && 0 <= p.0 < Width(img) && Pixel(img, p.1, p.0) == 255
       && (NeighbourSum(img, p.1, p.0) / 255 == 1 || NeighbourSum(img, p.1, p.0) / 255 == 3))
  {
    MinutiaeMembership(img, |img|, p);
  }

  /** Row-major order. */
  predicate Before(p: Point, q: Point)
  {
    p.1 < q.1 || (p.1 == q.1 && p.0 < q.0)
  }

  predicate RowMajor(ps: seq<Point>)
  {
    forall i, j | 0 <= i < j < |ps| :: Before(ps[i], ps[j])
  }

  lemma {:induction false} RowPointsOrdered(img: Image, row: int, cols: nat)
    ensures RowMajor(RowPoints(img, row, cols))
    ensures forall p | p in RowPoints(img, row, cols) :: p.1 == row && p.0 < cols
  {
    if cols > 0 {
      RowPointsOrdered(img, row, cols - 1);
    }
  }

  /** The points come out in row-major scan order, each at most once. */
  lemma {:induction false} MinutiaeOrdered(img: Image, rows: nat)
    ensures RowMajor(Minutiae(img, rows))
    ensures forall p | p in Minutiae(img, rows) :: p.1 < rows
  {
    if rows > 0 {
      MinutiaeOrdered(img, rows - 1);
      RowPointsOrdered(img, rows - 1, Width(img));
      var a, b := Minutiae(img, rows - 1), RowPoints(img, rows - 1, Width(img));
      forall i, j | 0 <= i < j < |a + b|
        ensures Before((a + b)[i], (a + b)[j])
      {
        if j >= |a| && i < |a| {
          assert a[i] in a && b[j - |a|] in b;
        }
      }
    }
  }

  /** The points as x0, y0, x1, y1, ... (`np.array(points).flatten()`). */
  function Flatten(points: seq<Point>): (r: seq<int>)
    ensures |r| == 2 * |points|
  {
    if |points| == 0 then [] else Flatten(points[..|points| - 1]) + [points[|points| - 1].0, points[|points| - 1].1]
  }

  lemma {:induction false} FlattenAt(points: seq<Point>, m: nat)
    requires m < |points|
    ensures Flatten(points)[2 * m] == points[m].0 && Flatten(points)[2 * m + 1] == points[m].1
  {
    if m < |points| - 1 {
      FlattenAt(points[..|points| - 1], m);
    }
  }

  /** The length of the descriptor. */
  const DescriptorLength := 64

  /**
   * `generate_bio_descriptor`: None for no minutiae; otherwise the flattened coordinates
   * truncated or zero-padded to `descriptorLength`, as unsigned 16-bit values.
   */
  function GenerateBioDescriptor(points: seq<Point>, descriptorLength: nat): (r: Option<seq<int>>)
    ensures r.None? <==> |points| == 0
    ensures r.Some? ==> |r.value| == descriptorLength
    ensures r.Some? ==> forall i | 0 <= i < descriptorLength ::
      r.value[i] == (if i < 2 * |points| then Flatten(points)[i] % 0x1_0000 else 0)
  {
    if |points| == 0 then None
    else
      var flat := Flatten(points);
      var fitted := if |flat| > descriptorLength then flat[..descriptorLength] else flat + seq(descriptorLength - |flat|, _ => 0);
      Some(seq(descriptorLength, i requires 0 <= i < descriptorLength => fitted[i] % 0x1_0000))
  }

  /** Point m of the minutiae fills descriptor slots 2m and 2m + 1, as long as they fit. */
  lemma DescriptorSlots(points: seq<Point>, m: nat)
    requires m < |points| && 2 * m + 1 < DescriptorLength
    requires 0 <= points[m].0 < 0x1_0000 && 0 <= points[m].1 < 0x1_0000
    ensures GenerateBioDescriptor(points, DescriptorLength).Some?
    ensures GenerateBioDescriptor(points, DescriptorLength).value[2 * m] == points[m].0
    ensures GenerateBioDescriptor(points, DescriptorLength).value[2 * m + 1] == points[m].1
  {
    FlattenAt(points, m);
  }

  /** `ndarray.tobytes()` of unsigned 16-bit values: two bytes each, low byte first. */
  function ToBytes(values: seq<int>): (r: seq<byte>)
    ensures |r| == 2 * |values|
  {
    if |values| == 0 then []
    else ToBytes(values[..|values| - 1]) + [values[|values| - 1] % 256, (values[|values| - 1] / 256) % 256]
  }

  /** Reading the bytes back little-endian gives each value, so the descriptor survives `tobytes`. */
  lemma {:induction false} ToBytesAt(values: seq<int>, m: nat)
    requires m < |values| && 0 <= values[m] < 0x1_0000
    ensures ToBytes(values)[2 * m] as int + 256 * (ToBytes(values)[2 * m + 1] as int) == values[m]
  {
    if m < |values| - 1 {
      ToBytesAt(values[..|values| - 1], m);
    }
  }
}
