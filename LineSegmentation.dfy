/**
 * Line segmentation of a binarised page (backend/model.py, `segment_lines`).
 *
 * The source sums the inverted Otsu-thresholded image along each row, giving
 * one non-negative number per row (the row projection), then scans the
 * projection once: a run of rows whose sum is positive is a text line, and
 * runs of at most ten rows are dropped as noise. Each surviving band of rows
 * is cropped out of the image at full width.
 *
 * The thresholding and the sum are left to OpenCV/NumPy; this module starts
 * from the projection.
 */
module LineSegmentation {
  import opened Wrappers

  /** Bands of this many rows or fewer are ignored. */
  const MinLineHeight: nat := 10

  /** The half-open band of rows [top, bottom) of the image. */
  datatype Band = Band(top: nat, bottom: nat)

  /** The crop rectangle handed to `image.crop`: (left, upper, right, lower). */
  datatype CropBox = CropBox(left: nat, upper: nat, right: nat, lower: nat)

  /** Every row of [s, e) has ink. */
  ghost predicate AllInk(proj: seq<nat>, s: nat, e: nat)
    requires s <= e <= |proj|
  {
    forall r :: s <= r < e ==> proj[r] > 0
  }

  /** [s, e) is a non-empty run of inked rows that cannot be extended either way. */
  ghost predicate IsMaximalRun(proj: seq<nat>, s: nat, e: nat)
  {
    && s < e <= |proj|
    && AllInk(proj, s, e)
    && (s == 0 || proj[s - 1] == 0)
    && (e == |proj| || proj[e] == 0)
  }

  /** A band the segmentation must report: a maximal inked run taller than the noise bound. */
  ghost predicate IsLine(proj: seq<nat>, b: Band)
  {
    IsMaximalRun(proj, b.top, b.bottom) && b.bottom - b.top > MinLineHeight
  }

  /** Bands come in increasing order and neither overlap nor touch. */
  ghost predicate Ordered(bands: seq<Band>)
  {
    forall j, k :: 0 <= j < k < |bands| ==> bands[j].bottom < bands[k].top
  }

  /**
   * The intended result of the scan: exactly the lines of the projection, each
   * once, top to bottom.
   */
  ghost predicate IsSegmentation(proj: seq<nat>, bands: seq<Band>)
  {
    && (forall k :: 0 <= k < |bands| ==> IsLine(proj, bands[k]))
    && Ordered(bands)
    && (forall b :: IsLine(proj, b) ==> b in bands)
  }

  /** Two maximal runs that end on the same row start on the same row. */
  lemma RunStartUnique(proj: seq<nat>, s1: nat, s2: nat, e: nat)
    requires IsMaximalRun(proj, s1, e) && IsMaximalRun(proj, s2, e)
    ensures s1 == s2
  {
  }

  /**
   * The scan of lines 23-33: `start` remembers where the current inked run
   * began; a blank row closes it, and a run still open after the last row is
   * closed at the image height.
   */
  method DetectLines(proj: seq<nat>) returns (lines: seq<Band>)
    ensures IsSegmentation(proj, lines)
  {
    lines := [];
    var start: Option<nat> := None;
    var i := 0;
    while i < |proj|
      invariant 0 <= i <= |proj|
      invariant start.Some? ==> start.value < i && AllInk(proj, start.value, i)
      invariant start.Some? ==> start.value == 0 || proj[start.value - 1] == 0
      invariant start.None? ==> i == 0 || proj[i - 1] == 0
      invariant forall k :: 0 <= k < |lines| ==> IsLine(proj, lines[k]) && lines[k].bottom < i
      invariant start.Some? ==> forall k :: 0 <= k < |lines| ==> lines[k].bottom < start.value
      invariant Ordered(lines)
      invariant forall b :: IsLine(proj, b) && b.bottom < i ==> b in lines
    {
      var value := proj[i];
      if value > 0 && start.None? {
        start := Some(i);
      } else if value == 0 && start.Some? {
        var s := start.value;
        if i - s > MinLineHeight {
          lines := lines + [Band(s, i)];
        }
        forall b | IsLine(proj, b) && b.bottom == i
          ensures b in lines
        {
          RunStartUnique(proj, b.top, s, i);
        }
        start := None;
      }
      i := i + 1;
    }
    if start.Some? && |proj| - start.value > MinLineHeight {
      lines := lines + [Band(start.value, |proj|)];
    }
    forall b | IsLine(proj, b) && b.bottom == |proj|
      ensures b in lines
    {
      RunStartUnique(proj, b.top, start.value, |proj|);
    }
  }

  /** The rows each crop box covers, in order. */
  function BandsOf(boxes: seq<CropBox>): (bands: seq<Band>)
    ensures |bands| == |boxes|
    ensures forall k :: 0 <= k < |boxes| ==> bands[k] == Band(boxes[k].upper, boxes[k].lower)
  {
    seq(|boxes|, k requires 0 <= k < |boxes| => Band(boxes[k].upper, boxes[k].lower))
  }

  /**
   * `segment_lines` from the projection on: one full-width crop box per
   * detected line, in the order the lines were found (line 35).
   */
  method SegmentLines(proj: seq<nat>, width: nat) returns (boxes: seq<CropBox>)
    ensures IsSegmentation(proj, BandsOf(boxes))
    ensures forall k :: 0 <= k < |boxes| ==> boxes[k].left == 0 && boxes[k].right == width
  {
    var lines := DetectLines(proj);
    boxes := seq(|lines|, k requires 0 <= k < |lines| => CropBox(0, lines[k].top, width, lines[k].bottom));
    assert BandsOf(boxes) == lines;
  }

  /** A blank page has no lines. */
  lemma BlankPageHasNoLines(proj: seq<nat>, bands: seq<Band>)
    requires IsSegmentation(proj, bands)
    ensures (forall r :: 0 <= r < |proj| ==> proj[r] == 0) ==> bands == []
  {
    if bands != [] {
      assert IsLine(proj, bands[0]);
      assert proj[bands[0].top] > 0;
    }
  }

  /**
   * The segmentation is determined by the projection: any two results that
   * meet the specification are the same sequence. Together with
   * `DetectLines`'s postcondition, each line appears exactly once.
   */
  lemma SegmentationUnique(proj: seq<nat>, a: seq<Band>, b: seq<Band>)
    requires IsSegmentation(proj, a) && IsSegmentation(proj, b)
    ensures a == b
  {
    assert NonEmptyBands(a) && NonEmptyBands(b);
    OrderedSameBandsEqual(a, b);
  }

  /** Every band of the sequence is non-empty. */
  ghost predicate NonEmptyBands(bands: seq<Band>)
  {
    forall k :: 0 <= k < |bands| ==> bands[k].top < bands[k].bottom
  }

  /** Two ordered sequences of non-empty bands that hold each other's first band start with the same band. */
  lemma SameFirstBand(a: seq<Band>, b: seq<Band>)
    requires Ordered(a) && Ordered(b) && NonEmptyBands(a) && NonEmptyBands(b)
    requires a != [] && b != [] && a[0] in b && b[0] in a
    ensures a[0] == b[0]
  {
  }

  /** Removing the first band of an ordered sequence leaves exactly the bands other than it. */
  lemma TailMembers(a: seq<Band>, x: Band)
    requires Ordered(a) && NonEmptyBands(a) && a != []
    ensures x in a[1..] <==> x in a && x != a[0]
  {
  }

  /** Two ordered sequences of non-empty bands holding the same bands are equal. */
  lemma {:induction false} OrderedSameBandsEqual(a: seq<Band>, b: seq<Band>)
    requires Ordered(a) && Ordered(b) && NonEmptyBands(a) && NonEmptyBands(b)
    requires forall x :: x in a <==> x in b
    ensures a == b
  {
    assert a != [] ==> a[0] in b;
    assert b != [] ==> b[0] in a;
    if a != [] && b != [] {
      SameFirstBand(a, b);
      forall x
        ensures x in a[1..] <==> x in b[1..]
      {
        TailMembers(a, x);
        TailMembers(b, x);
      }
      OrderedSameBandsEqual(a[1..], b[1..]);
      assert a == [a[0]] + a[1..];
      assert b == [b[0]] + b[1..];
    }
  }
}
