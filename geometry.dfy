/**
 * Bucket geometry of the track: `onLayout` splits the content width into
 * eleven buckets of width `boxWidth`; `drawTrack` and `drawThumb` place
 * separators, labels and the thumb on bucket edges; the hit-test maps a
 * coordinate back to a bucket.
 */
module Geometry {
  import opened Touch

  /** The left edge of bucket `i`, which is also the position of separator `i`. */
  function BucketLeft(paddingLeft: real, boxWidth: real, i: int): (left: real)
  {
    paddingLeft + i as real * boxWidth
  }

  /** The centre of bucket `i`, where its digit is drawn. */
  function LabelCentre(paddingLeft: real, boxWidth: real, i: int): (c: real)
    requires boxWidth > 0.0
    ensures BucketLeft(paddingLeft, boxWidth, i) < c < BucketLeft(paddingLeft, boxWidth, i + 1)
  {
    assert (i + 1) as real * boxWidth == i as real * boxWidth + boxWidth;
    BucketLeft(paddingLeft, boxWidth, i) + boxWidth / 2.0
  }

  /**
   * The horizontal extent the hit-test gives to score `i`: its bucket, where
   * the first bucket reaches out to the left of the track and the last one
   * to the right of it.
   */
  predicate InBucket(x: real, paddingLeft: real, boxWidth: real, i: int)
  {
    && (i == MIN_NPS || BucketLeft(paddingLeft, boxWidth, i) <= x)
    && (i == MAX_NPS || x < BucketLeft(paddingLeft, boxWidth, i + 1))
  }

  /** `k` lies at or left of the quotient exactly when `x` lies at or right of edge `k`. */
  lemma EdgeQuotient(x: real, paddingLeft: real, boxWidth: real, k: int)
    requires boxWidth > 0.0
    ensures BucketLeft(paddingLeft, boxWidth, k) <= x <==> k as real <= (x - paddingLeft) / boxWidth
  {
    var q := (x - paddingLeft) / boxWidth;
    assert q * boxWidth == x - paddingLeft;
    if k as real <= q {
      assert k as real * boxWidth <= q * boxWidth;
    } else {
      assert q * boxWidth < k as real * boxWidth;
    }
  }

  /** The hit-test picks score `i` exactly for the coordinates in bucket `i`. */
  lemma HitTestPicksBucket(x: real, paddingLeft: real, boxWidth: real, i: int)
    requires boxWidth > 0.0
    requires MIN_NPS <= i <= MAX_NPS
    ensures Score(x, paddingLeft, boxWidth) == i <==> InBucket(x, paddingLeft, boxWidth, i)
  {
    TruncationAgreesWithFloor(x, paddingLeft, boxWidth);
    EdgeQuotient(x, paddingLeft, boxWidth, i);
    EdgeQuotient(x, paddingLeft, boxWidth, i + 1);
  }

  /**
   * A touch left of the track selects 0 and a touch at or beyond its right
   * end selects 10.
   */
  lemma OffTrackIsClamped(x: real, paddingLeft: real, boxWidth: real)
    requires boxWidth > 0.0
    ensures x < paddingLeft ==> Score(x, paddingLeft, boxWidth) == MIN_NPS
    ensures BucketLeft(paddingLeft, boxWidth, BUCKETS) <= x ==> Score(x, paddingLeft, boxWidth) == MAX_NPS
  {
    HitTestPicksBucket(x, paddingLeft, boxWidth, MIN_NPS);
    HitTestPicksBucket(x, paddingLeft, boxWidth, MAX_NPS);
    if x < paddingLeft {
      assert x < BucketLeft(paddingLeft, boxWidth, MIN_NPS + 1);
    }
    if BucketLeft(paddingLeft, boxWidth, BUCKETS) <= x {
      assert BucketLeft(paddingLeft, boxWidth, MAX_NPS) <= x;
    }
  }

  /**
   * With `boxWidth = contentWidth / 11`, the eleven buckets tile the content
   * area: bucket 0 starts at the padding and bucket 10 ends where the track
   * outline ends.
   */
  lemma BucketsTileContent(paddingLeft: real, contentWidth: real, i: int)
    requires MIN_NPS <= i <= MAX_NPS
    ensures BucketLeft(paddingLeft, contentWidth / BUCKETS as real, 0) == paddingLeft
    ensures BucketLeft(paddingLeft, contentWidth / BUCKETS as real, BUCKETS) == paddingLeft + contentWidth
    ensures BucketLeft(paddingLeft, contentWidth / BUCKETS as real, i + 1)
         == BucketLeft(paddingLeft, contentWidth / BUCKETS as real, i) + contentWidth / BUCKETS as real
  {
  }

  /**
   * Touching a bucket's left edge or its digit selects that bucket: what is
   * drawn for score `i` lies where the hit-test answers `i`.
   */
  lemma DrawnPointsHitTheirBucket(paddingLeft: real, boxWidth: real, i: int)
    requires boxWidth > 0.0
    requires MIN_NPS <= i <= MAX_NPS
    ensures Score(BucketLeft(paddingLeft, boxWidth, i), paddingLeft, boxWidth) == i
    ensures Score(LabelCentre(paddingLeft, boxWidth, i), paddingLeft, boxWidth) == i
  {
    var left := BucketLeft(paddingLeft, boxWidth, i);
    assert left < BucketLeft(paddingLeft, boxWidth, i + 1);
    HitTestPicksBucket(left, paddingLeft, boxWidth, i);
    HitTestPicksBucket(LabelCentre(paddingLeft, boxWidth, i), paddingLeft, boxWidth, i);
  }
}
