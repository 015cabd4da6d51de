/**
 * Plane geometry behind a sticker: points, the affine part of an
 * android.graphics.Matrix, axis-aligned rectangles and the four named
 * corners of the untransformed content rectangle. Reals stand in for floats.
 */
module Geometry {

  datatype Coord = Coord(x: real, y: real)

  /** The four corner slots of a sticker (Position.TOP_LEFT, ...). */
  datatype Corner = TopLeft | TopRight | BottomRight | BottomLeft

  /**
   * The affine 2x3 part of a 3x3 matrix
   *   [ scaleX skewX transX ]
   *   [ skewY  scaleY transY ]
   *   [ 0      0      1      ]
   * Only translate, scale and rotate are ever applied, so the perspective
   * row stays (0, 0, 1).
   */
  datatype Affine = Affine(scaleX: real, skewX: real, transX: real,
                           skewY: real, scaleY: real, transY: real)

  /** An axis-aligned rectangle, as android.graphics.RectF. */
  datatype Rect = Rect(left: real, top: real, right: real, bottom: real)

  /** A rotation given by its cosine and sine (the angle-to-trig step is not modelled). */
  datatype Rotation = Rotation(cos: real, sin: real)

  const Identity: Affine := Affine(1.0, 0.0, 0.0, 0.0, 1.0, 0.0)

  function Apply(m: Affine, p: Coord): Coord
  {
    Coord(m.scaleX * p.x + m.skewX * p.y + m.transX,
          m.skewY * p.x + m.scaleY * p.y + m.transY)
  }

  /** The matrix product a * b: first b, then a. */
  function Concat(a: Affine, b: Affine): Affine
  {
    Affine(a.scaleX * b.scaleX + a.skewX * b.skewY,
           a.scaleX * b.skewX + a.skewX * b.scaleY,
           a.scaleX * b.transX + a.skewX * b.transY + a.transX,
           a.skewY * b.scaleX + a.scaleY * b.skewY,
           a.skewY * b.skewX + a.scaleY * b.scaleY,
           a.skewY * b.transX + a.scaleY * b.transY + a.transY)
  }

  function Translate(dx: real, dy: real): Affine
  {
    Affine(1.0, 0.0, dx, 0.0, 1.0, dy)
  }

  /** Scale by (sx, sy) keeping the pivot (px, py) in place. */
  function ScaleAbout(sx: real, sy: real, px: real, py: real): Affine
  {
    Affine(sx, 0.0, px - sx * px, 0.0, sy, py - sy * py)
  }

  /** Rotate by rot keeping the pivot (px, py) in place. */
  function RotateAbout(rot: Rotation, px: real, py: real): Affine
  {
    Affine(rot.cos, -rot.sin, px - rot.cos * px + rot.sin * py,
           rot.sin, rot.cos, py - rot.sin * px - rot.cos * py)
  }

  /** Matrix.postTranslate: the translation is applied after m. */
  function PostTranslate(m: Affine, dx: real, dy: real): (r: Affine)
    ensures forall p :: Apply(r, p) == Coord(Apply(m, p).x + dx, Apply(m, p).y + dy)
  {
    var r := Concat(Translate(dx, dy), m);
    forall p ensures Apply(r, p) == Coord(Apply(m, p).x + dx, Apply(m, p).y + dy) {
      ApplyConcat(Translate(dx, dy), m, p);
    }
    r
  }

  /** Matrix.postScale(sx, sy, px, py); postScale(sx, sy) is the pivot (0, 0). */
  function PostScale(m: Affine, sx: real, sy: real, px: real, py: real): (r: Affine)
    ensures forall p {:trigger Apply(r, p)} :: Apply(r, p) == Apply(ScaleAbout(sx, sy, px, py), Apply(m, p))
  {
    var r := Concat(ScaleAbout(sx, sy, px, py), m);
    forall p ensures Apply(r, p) == Apply(ScaleAbout(sx, sy, px, py), Apply(m, p)) {
      ApplyConcat(ScaleAbout(sx, sy, px, py), m, p);
    }
    r
  }

  /** Matrix.postRotate(degrees, px, py), the angle given as a Rotation. */
  function PostRotate(m: Affine, rot: Rotation, px: real, py: real): (r: Affine)
    ensures forall p {:trigger Apply(r, p)} :: Apply(r, p) == Apply(RotateAbout(rot, px, py), Apply(m, p))
  {
    var r := Concat(RotateAbout(rot, px, py), m);
    forall p ensures Apply(r, p) == Apply(RotateAbout(rot, px, py), Apply(m, p)) {
      ApplyConcat(RotateAbout(rot, px, py), m, p);
    }
    r
  }

  /** Post-multiplication composes: mapping through a * b is mapping through b, then a. */
  lemma ApplyConcat(a: Affine, b: Affine, p: Coord)
    ensures Apply(Concat(a, b), p) == Apply(a, Apply(b, p))
  {
    var q := Apply(b, p);
    var c := Concat(a, b);
    RowExpansion(a.scaleX, a.skewX, a.transX, b.scaleX, b.skewX, b.transX, b.skewY, b.scaleY, b.transY, p.x, p.y);
    RowExpansion(a.skewY, a.scaleY, a.transY, b.scaleX, b.skewX, b.transX, b.skewY, b.scaleY, b.transY, p.x, p.y);
    assert Apply(a, q).x == Apply(c, p).x;
    assert Apply(a, q).y == Apply(c, p).y;
  }

  /** One row (u, v, w) of a product applied to (x, y), expanded. */
  lemma RowExpansion(u: real, v: real, w: real, a: real, b: real, c: real, d: real, e: real, f: real, x: real, y: real)
    ensures u * (a * x + b * y + c) + v * (d * x + e * y + f) + w
         == (u * a + v * d) * x + (u * b + v * e) * y + (u * c + v * f + w)
  {
    calc {
      u * (a * x + b * y + c) + v * (d * x + e * y + f) + w;
      u * (a * x) + u * (b * y) + u * c + v * (d * x) + v * (e * y) + v * f + w;
      (u * a) * x + (u * b) * y + u * c + (v * d) * x + (v * e) * y + v * f + w;
    }
  }

  /** The pivot of a scale is a fixed point of it. */
  lemma ScaleFixesPivot(sx: real, sy: real, px: real, py: real)
    ensures Apply(ScaleAbout(sx, sy, px, py), Coord(px, py)) == Coord(px, py)
  {
  }

  /** The pivot of a rotation is a fixed point of it. */
  lemma RotateFixesPivot(rot: Rotation, px: real, py: real)
    ensures Apply(RotateAbout(rot, px, py), Coord(px, py)) == Coord(px, py)
  {
  }

  /** Scaling about a pivot twice is scaling once by the products. */
  lemma ScaleAboutComposes(s1: real, t1: real, s2: real, t2: real, px: real, py: real, q: Coord)
    ensures Apply(ScaleAbout(s2, t2, px, py), Apply(ScaleAbout(s1, t1, px, py), q))
         == Apply(ScaleAbout(s1 * s2, t1 * t2, px, py), q)
  {
    var q1 := Apply(ScaleAbout(s1, t1, px, py), q);
    ScaleRow(s1, s2, q.x, q.y, q1.y, px);
    ScaleRow(t1, t2, q.y, q.x, q1.x, py);
  }

  /**
   * One coordinate of two scales about one pivot, by s1 then s2, written as
   * Apply spells it out: x is the coordinate scaled, y and y1 the other
   * coordinate before and after the first scale, with weight zero.
   */
  lemma ScaleRow(s1: real, s2: real, x: real, y: real, y1: real, p: real)
    ensures s2 * (s1 * x + 0.0 * y + (p - s1 * p)) + 0.0 * y1 + (p - s2 * p)
         == (s1 * s2) * x + 0.0 * y + (p - (s1 * s2) * p)
  {
    assert s2 * (s1 * x) == (s1 * s2) * x;
    assert s2 * (s1 * p) == (s1 * s2) * p;
    calc {
      s2 * (s1 * x + 0.0 * y + (p - s1 * p)) + 0.0 * y1 + (p - s2 * p);
      s2 * (s1 * x) + s2 * p - s2 * (s1 * p) + p - s2 * p;
      (s1 * s2) * x + p - (s1 * s2) * p;
    }
  }

  /** Two post-scales about one pivot map every point as one post-scale by the products. */
  lemma PostScaleComposes(m: Affine, s1: real, t1: real, s2: real, t2: real, px: real, py: real, p: Coord)
    ensures Apply(PostScale(PostScale(m, s1, t1, px, py), s2, t2, px, py), p)
         == Apply(PostScale(m, s1 * s2, t1 * t2, px, py), p)
  {
    ScaleAboutComposes(s1, t1, s2, t2, px, py, Apply(m, p));
  }

  function Min(a: real, b: real): real { if a <= b then a else b }
  function Max(a: real, b: real): real { if a >= b then a else b }

  function Min4(a: real, b: real, c: real, d: real): real { Min(Min(a, b), Min(c, d)) }
  function Max4(a: real, b: real, c: real, d: real): real { Max(Max(a, b), Max(c, d)) }

  /** (0, 0, width, height): the untransformed content rectangle. */
  function ContentRect(width: nat, height: nat): Rect
  {
    Rect(0.0, 0.0, width as real, height as real)
  }

  /** The untransformed position of each corner slot. */
  function ContentCorner(width: nat, height: nat, c: Corner): Coord
  {
    match c
    case TopLeft => Coord(0.0, 0.0)
    case TopRight => Coord(width as real, 0.0)
    case BottomRight => Coord(width as real, height as real)
    case BottomLeft => Coord(0.0, height as real)
  }

  function RectCenter(r: Rect): Coord
  {
    Coord((r.left + r.right) * 0.5, (r.top + r.bottom) * 0.5)
  }

  /**
   * Matrix.mapRect: the bounding box of the images of the four corners.
   * Every image lies in the box, and each side of the box is touched by one.
   */
  function MapRect(m: Affine, r: Rect): (b: Rect)
    ensures forall p :: p in MappedCorners(m, r) ==>
      b.left <= p.x <= b.right && b.top <= p.y <= b.bottom
    ensures exists p :: p in MappedCorners(m, r) && p.x == b.left
    ensures exists p :: p in MappedCorners(m, r) && p.x == b.right
    ensures exists p :: p in MappedCorners(m, r) && p.y == b.top
    ensures exists p :: p in MappedCorners(m, r) && p.y == b.bottom
  {
    var cs := MappedCorners(m, r);
    Rect(Min4(cs[0].x, cs[1].x, cs[2].x, cs[3].x), Min4(cs[0].y, cs[1].y, cs[2].y, cs[3].y),
         Max4(cs[0].x, cs[1].x, cs[2].x, cs[3].x), Max4(cs[0].y, cs[1].y, cs[2].y, cs[3].y))
  }

  /** Images of the corners of r, in the order top-left, top-right, bottom-right, bottom-left. */
  function MappedCorners(m: Affine, r: Rect): seq<Coord>
  {
    [Apply(m, Coord(r.left, r.top)), Apply(m, Coord(r.right, r.top)),
     Apply(m, Coord(r.right, r.bottom)), Apply(m, Coord(r.left, r.bottom))]
  }

  /** The quadrilateral TL, TR, BR, BL of the content under m. */
  function CornerLoop(m: Affine, width: nat, height: nat): (q: seq<Coord>)
    ensures |q| == 4
  {
    [Apply(m, ContentCorner(width, height, TopLeft)), Apply(m, ContentCorner(width, height, TopRight)),
     Apply(m, ContentCorner(width, height, BottomRight)), Apply(m, ContentCorner(width, height, BottomLeft))]
  }

  /** Every corner of the quadrilateral lies inside the bounds MapRect gives for the content rectangle. */
  lemma CornerLoopInBounds(m: Affine, width: nat, height: nat)
    ensures var q := CornerLoop(m, width, height);
      var b := MapRect(m, ContentRect(width, height));
      forall i :: 0 <= i < 4 ==> b.left <= q[i].x <= b.right && b.top <= q[i].y <= b.bottom
  {
    var q := CornerLoop(m, width, height);
    var cs := MappedCorners(m, ContentRect(width, height));
    assert q == cs;
    assert q[0] in cs && q[1] in cs && q[2] in cs && q[3] in cs;
  }

  /**
   * The corner sequence goes round the quadrilateral: under any affine map
   * the edge TL->TR equals the edge BL->BR and the edge TL->BL equals TR->BR,
   * so consecutive entries are joined by the four edges and the two
   * diagonals share one midpoint, the image of the content centre.
   */
  lemma CornerLoopIsParallelogram(m: Affine, width: nat, height: nat)
    ensures var q := CornerLoop(m, width, height);
      && q[1].x - q[0].x == q[2].x - q[3].x && q[1].y - q[0].y == q[2].y - q[3].y
      && q[3].x - q[0].x == q[2].x - q[1].x && q[3].y - q[0].y == q[2].y - q[1].y
      && Coord((q[0].x + q[2].x) * 0.5, (q[0].y + q[2].y) * 0.5)
         == Apply(m, RectCenter(ContentRect(width, height)))
      && Coord((q[1].x + q[3].x) * 0.5, (q[1].y + q[3].y) * 0.5)
         == Apply(m, RectCenter(ContentRect(width, height)))
  {
  }

  /** Without a transform the corner loop is the content rectangle's own corners. */
  lemma CornerLoopIdentity(width: nat, height: nat)
    ensures CornerLoop(Identity, width, height)
         == [Coord(0.0, 0.0), Coord(width as real, 0.0),
             Coord(width as real, height as real), Coord(0.0, height as real)]
  {
  }

  /** If a + c and b + d are the same sum s, the least and greatest of the four add up to s. */
  lemma MinPlusMaxOfPairs(a: real, b: real, c: real, d: real, s: real)
    requires a + c == s && b + d == s
    ensures Min4(a, b, c, d) + Max4(a, b, c, d) == s
  {
    assert Max(a, c) == s - Min(a, c);
    assert Max(b, d) == s - Min(b, d);
  }

  /**
   * The centre of the mapped bounding box is the image of the rectangle's
   * centre, whatever rotation or skew the matrix holds.
   */
  lemma MapRectCenter(m: Affine, r: Rect)
    ensures RectCenter(MapRect(m, r)) == Apply(m, RectCenter(r))
  {
    var cs := MappedCorners(m, r);
    var mid := RectCenter(r);
    var c := Apply(m, mid);
    OppositeCornersSum(m, Coord(r.left, r.top), Coord(r.right, r.bottom), mid);
    OppositeCornersSum(m, Coord(r.right, r.top), Coord(r.left, r.bottom), mid);
    MinPlusMaxOfPairs(cs[0].x, cs[1].x, cs[2].x, cs[3].x, 2.0 * c.x);
    MinPlusMaxOfPairs(cs[0].y, cs[1].y, cs[2].y, cs[3].y, 2.0 * c.y);
  }

  /** An affine map sends the midpoint of p and q to the midpoint of their images. */
  lemma OppositeCornersSum(m: Affine, p: Coord, q: Coord, mid: Coord)
    requires mid == Coord((p.x + q.x) * 0.5, (p.y + q.y) * 0.5)
    ensures Apply(m, p).x + Apply(m, q).x == 2.0 * Apply(m, mid).x
    ensures Apply(m, p).y + Apply(m, q).y == 2.0 * Apply(m, mid).y
  {
    calc {
      2.0 * Apply(m, mid).x;
      2.0 * (m.scaleX * ((p.x + q.x) * 0.5) + m.skewX * ((p.y + q.y) * 0.5) + m.transX);
      m.scaleX * (p.x + q.x) + m.skewX * (p.y + q.y) + 2.0 * m.transX;
      Apply(m, p).x + Apply(m, q).x;
    }
    calc {
      2.0 * Apply(m, mid).y;
      2.0 * (m.skewY * ((p.x + q.x) * 0.5) + m.scaleY * ((p.y + q.y) * 0.5) + m.transY);
      m.skewY * (p.x + q.x) + m.scaleY * (p.y + q.y) + 2.0 * m.transY;
      Apply(m, p).y + Apply(m, q).y;
    }
  }

  /** The pair of coordinates at index 2i, 2i+1 of a flat float array. */
  function PairAt(s: seq<real>, i: nat): Coord
    requires 2 * i + 1 < |s|
  {
    Coord(s[2 * i], s[2 * i + 1])
  }

  /**
   * Matrix.mapPoints(dst, src): src holds x0, y0, x1, y1, ...; dst holds the
   * images, pair by pair.
   */
  function MapPairs(m: Affine, src: seq<real>): (dst: seq<real>)
    requires |src| % 2 == 0
    ensures |dst| == |src|
    ensures forall i: nat {:trigger PairAt(dst, i)} :: 2 * i + 1 < |src| ==> PairAt(dst, i) == Apply(m, PairAt(src, i))
    decreases |src|
  {
    if src == [] then []
    else
      var p := Apply(m, Coord(src[0], src[1]));
      var rest := MapPairs(m, src[2..]);
      var dst := [p.x, p.y] + rest;
      assert forall i: nat {:trigger PairAt(dst, i)} :: 0 < i && 2 * i + 1 < |src| ==>
        PairAt(dst, i) == PairAt(rest, i - 1) && PairAt(src, i) == PairAt(src[2..], i - 1) by {
        forall i: nat | 0 < i && 2 * i + 1 < |src|
          ensures PairAt(dst, i) == PairAt(rest, i - 1) && PairAt(src, i) == PairAt(src[2..], i - 1)
        {
          assert 2 * (i - 1) == 2 * i - 2;
          assert dst[2 * i] == rest[2 * (i - 1)] && dst[2 * i + 1] == rest[2 * (i - 1) + 1];
          assert src[2 * i] == src[2..][2 * (i - 1)] && src[2 * i + 1] == src[2..][2 * (i - 1) + 1];
        }
      }
      dst
  }
}
