/**
 * A sticker: an image overlaid on an editing canvas, placed by an affine
 * matrix, with four cached corner points, a layering priority, size limits
 * for scale gestures, an optional colour filter and a set of menus keyed by
 * their position type.
 *
 * The decoded bitmap is reduced to its width and height, the clock to a
 * `now` argument, and the distance and point-in-quadrilateral helpers to
 * function arguments.
 */
module StickerModel {
  import opened Geometry
  import Layering
  import ScaleGuard

  datatype Option<T> = None | Some(value: T)

  /** The colour filter built from an RGB triple; its construction is not modelled. */
  datatype ColorFilter = ColorFilter(red: int, green: int, blue: int)

  /** setColorFilter's rule: -1 on any channel means "no filter". */
  function FilterFor(red: int, green: int, blue: int): (f: Option<ColorFilter>)
    ensures f.None? <==> (red == -1 || green == -1 || blue == -1)
    ensures f.Some? ==> f.value == ColorFilter(red, green, blue)
  {
    if red == -1 || green == -1 || blue == -1 then None
    else Some(ColorFilter(red, green, blue))
  }

  /** A mutable point: one slot of the corner cache. */
  class Point {
    var x: real
    var y: real

    constructor()
      ensures x == 0.0 && y == 0.0
    {
      x, y := 0.0, 0.0;
    }

    function Value(): Coord
      reads this
    {
      Coord(x, y)
    }

    method Set(x: real, y: real)
      modifies this
      ensures Value() == Coord(x, y)
    {
      this.x, this.y := x, y;
    }
  }

  /** A menu button around a sticker, reduced to its position type and the sticker it is attached to. */
  class StickerMenu {
    const positionType: int
    var sticker: Sticker?

    constructor(positionType: int)
      ensures this.positionType == positionType && sticker == null
    {
      this.positionType := positionType;
      sticker := null;
    }

    method AttachSticker(s: Sticker)
      modifies this`sticker
      ensures sticker == s
    {
      sticker := s;
    }
  }

  /** The menu map after putting each menu of the sequence, in order, under its position type. */
  function PutAll(m: map<int, StickerMenu>, menus: seq<StickerMenu>): map<int, StickerMenu>
    decreases |menus|
  {
    if menus == [] then m
    else
      var last := menus[|menus| - 1];
      PutAll(m, menus[..|menus| - 1])[last.positionType := last]
  }

  /** menus[j] is the last menu of the sequence with position type k. */
  ghost predicate LastOfType(menus: seq<StickerMenu>, k: int, j: int)
  {
    && 0 <= j < |menus|
    && menus[j].positionType == k
    && forall j' :: j < j' < |menus| ==> menus[j'].positionType != k
  }

  /** After putting a sequence of menus, a position type is present exactly when it was before or some menu has it. */
  lemma {:induction false} PutAllKeys(m: map<int, StickerMenu>, menus: seq<StickerMenu>, k: int)
    ensures k in PutAll(m, menus) <==>
      k in m || exists j :: 0 <= j < |menus| && menus[j].positionType == k
    decreases |menus|
  {
    if menus != [] {
      var n := |menus| - 1;
      PutAllKeys(m, menus[..n], k);
      if k in PutAll(m, menus[..n]) && k !in m {
        var j :| 0 <= j < n && menus[..n][j].positionType == k;
        assert menus[j].positionType == k;
      }
      if k !in m && k != menus[n].positionType && exists j :: 0 <= j < |menus| && menus[j].positionType == k {
        var j :| 0 <= j < |menus| && menus[j].positionType == k;
        assert menus[..n][j].positionType == k;
      }
    }
  }

  /** A position type holds the last added menu that has it. */
  lemma {:induction false} PutAllLastWins(m: map<int, StickerMenu>, menus: seq<StickerMenu>, k: int, j: int)
    requires LastOfType(menus, k, j)
    ensures k in PutAll(m, menus) && PutAll(m, menus)[k] == menus[j]
    decreases |menus|
  {
    var n := |menus| - 1;
    if j < n {
      assert LastOfType(menus[..n], k, j);
      PutAllLastWins(m, menus[..n], k, j);
    }
  }

  /** A position type no added menu has keeps its old menu. */
  lemma {:induction false} PutAllKeepsOthers(m: map<int, StickerMenu>, menus: seq<StickerMenu>, k: int)
    requires k in m
    requires forall j :: 0 <= j < |menus| ==> menus[j].positionType != k
    ensures k in PutAll(m, menus) && PutAll(m, menus)[k] == m[k]
    decreases |menus|
  {
    if menus != [] {
      var n := |menus| - 1;
      PutAllKeepsOthers(m, menus[..n], k);
    }
  }

  /** Every menu in the map after PutAll was in the map before or is one of the new menus. */
  lemma {:induction false} PutAllValues(m: map<int, StickerMenu>, menus: seq<StickerMenu>)
    ensures forall v :: v in PutAll(m, menus).Values ==> v in m.Values || v in menus
    decreases |menus|
  {
    if menus != [] {
      var n := |menus| - 1;
      PutAllValues(m, menus[..n]);
      assert forall v :: v in menus[..n] ==> v in menus;
    }
  }

  /** A set that is not empty has an element. */
  lemma HasElement(s: set<int>)
    ensures s == {} || exists x :: x in s
  {
    if forall x :: x !in s {
      assert s == {};
    }
  }

  /** A finite non-empty set of integers has a least element. */
  lemma MinExists(s: set<int>)
    requires s != {}
    ensures exists k :: k in s && forall j :: j in s ==> k <= j
    decreases |s|
  {
    HasElement(s);
    var x :| x in s;
    if s != {x} {
      MinExists(s - {x});
      var k :| k in s - {x} && forall j :: j in s - {x} ==> k <= j;
      var least := if x < k then x else k;
      forall j | j in s ensures least <= j {
        if j != x {
          assert j in s - {x};
        }
      }
    }
  }

  function MinOf(s: set<int>): (k: int)
    requires s != {}
    ensures k in s && forall j :: j in s ==> k <= j
  {
    MinExists(s);
    var k :| k in s && forall j :: j in s ==> k <= j;
    k
  }

  /** The keys of a sparse array in the order it stores them: ascending. */
  function SortedKeys(s: set<int>): (r: seq<int>)
    ensures |r| == |s|
    ensures forall k :: k in r <==> k in s
    ensures forall i :: 0 <= i < |r| ==> r[i] in s
    ensures forall i, j :: 0 <= i < j < |r| ==> r[i] < r[j]
    decreases |s|
  {
    if s == {} then []
    else
      var k := MinOf(s);
      var rest := SortedKeys(s - {k});
      PrependLeast(s, k, rest);
      [k] + rest
  }

  /** Putting the least element in front of the ascending rest gives the whole set ascending. */
  lemma PrependLeast(s: set<int>, k: int, rest: seq<int>)
    requires k in s && forall j :: j in s ==> k <= j
    requires |rest| == |s - {k}|
    requires forall x :: x in rest <==> x in s - {k}
    requires forall i, j :: 0 <= i < j < |rest| ==> rest[i] < rest[j]
    ensures |[k] + rest| == |s|
    ensures forall x :: x in [k] + rest <==> x in s
    ensures forall i :: 0 <= i < |[k] + rest| ==> ([k] + rest)[i] in s
    ensures forall i, j :: 0 <= i < j < |[k] + rest| ==> ([k] + rest)[i] < ([k] + rest)[j]
  {
    var r := [k] + rest;
    assert |s - {k}| == |s| - 1;
    forall i | 0 <= i < |r| ensures r[i] in s {
      if i > 0 {
        assert r[i] == rest[i - 1] && rest[i - 1] in s - {k};
      }
    }
    forall i, j | 0 <= i < j < |r| ensures r[i] < r[j] {
      assert r[j] == rest[j - 1];
      if i > 0 {
        assert r[i] == rest[i - 1];
      } else {
        assert r[i] == k;
        assert rest[j - 1] in s - {k};
      }
    }
  }

  /** The menus of a sparse array in index order, valueAt(0), valueAt(1), ... */
  function MenusInKeyOrder(m: map<int, StickerMenu>): (r: seq<StickerMenu>)
    ensures |r| == |SortedKeys(m.Keys)|
    ensures forall i :: 0 <= i < |r| ==> r[i] == m[SortedKeys(m.Keys)[i]]
  {
    ValuesAt(m, SortedKeys(m.Keys))
  }

  /** The menus filed under the given keys, in the keys' order. */
  function ValuesAt(m: map<int, StickerMenu>, keys: seq<int>): (r: seq<StickerMenu>)
    requires forall i :: 0 <= i < |keys| ==> keys[i] in m
    ensures |r| == |keys|
    ensures forall i :: 0 <= i < |r| ==> r[i] == m[keys[i]]
    decreases |keys|
  {
    if keys == [] then [] else [m[keys[0]]] + ValuesAt(m, keys[1..])
  }

  /** The menus in key order are exactly the map's menus, one per key. */
  lemma MenusInKeyOrderAreValues(m: map<int, StickerMenu>)
    ensures |MenusInKeyOrder(m)| == |m|
    ensures forall v :: v in MenusInKeyOrder(m) <==> v in m.Values
  {
    var keys := SortedKeys(m.Keys);
    var r := MenusInKeyOrder(m);
    forall v | v in m.Values ensures v in r {
      var k :| k in m && m[k] == v;
      var i :| 0 <= i < |keys| && keys[i] == k;
      assert r[i] == v;
    }
  }

  class Sticker {
    /** Width and height of the sticker's bitmap. */
    var width: nat
    var height: nat
    var matrix: Affine
    /** The rectangle object getRectF refills and returns. */
    var rectF: Rect
    var isActive: bool
    var isDeleted: bool
    var priority: int
    var minSize: int
    var maxSize: int
    var isAutoLifting: bool
    var colorFilter: Option<ColorFilter>
    /** The corner cache: four point objects, one per corner, updated in place. */
    const pointMap: map<Corner, Point>
    var menuMap: map<int, StickerMenu>

    /** Every corner has its own point object. */
    ghost predicate Valid()
    {
      && (forall c: Corner :: c in pointMap)
      && (forall c: Corner, d: Corner :: c != d ==> pointMap[c] != pointMap[d])
    }

    /** The cached position of a corner. */
    function CachedCorner(c: Corner): Coord
      requires Valid()
      reads pointMap[c]
    {
      pointMap[c].Value()
    }

    /** The cache holds the images of the four content corners under the current matrix. */
    ghost predicate CornersFresh()
      requires Valid()
      reads this`matrix, this`width, this`height, pointMap.Values
    {
      forall c: Corner :: CachedCorner(c) == Apply(matrix, ContentCorner(width, height, c))
    }

    /** A sticker of the given bitmap size, created at clock reading now. */
    constructor(width: nat, height: nat, now: int)
      ensures Valid() && fresh(pointMap.Values)
      ensures this.width == width && this.height == height
      ensures matrix == Identity && rectF == Rect(0.0, 0.0, 0.0, 0.0)
      ensures priority == Layering.Key(Layering.Front(now))
      ensures !isActive && !isDeleted && !isAutoLifting
      ensures minSize == 0 && maxSize == 0 && colorFilter == None && menuMap == map[]
      ensures forall c: Corner :: CachedCorner(c) == Coord(0.0, 0.0)
    {
      var topLeft := new Point();
      var topRight := new Point();
      var bottomRight := new Point();
      var bottomLeft := new Point();
      this.width, this.height := width, height;
      matrix := Identity;
      rectF := Rect(0.0, 0.0, 0.0, 0.0);
      isActive, isDeleted, isAutoLifting := false, false, false;
      priority := now;
      minSize, maxSize := 0, 0;
      colorFilter := None;
      pointMap := map[TopLeft := topLeft, TopRight := topRight,
                      BottomRight := bottomRight, BottomLeft := bottomLeft];
      menuMap := map[];
      new;
      forall c: Corner ensures c in pointMap {
        match c
        case TopLeft =>
        case TopRight =>
        case BottomRight =>
        case BottomLeft =>
      }
      forall c: Corner, d: Corner | c != d ensures pointMap[c] != pointMap[d] {
        match c
        case TopLeft =>
        case TopRight =>
        case BottomRight =>
        case BottomLeft =>
      }
    }

    method SetActive(active: bool)
      modifies this`isActive
      ensures isActive == active
    {
      isActive := active;
    }

    method SetDelete(delete: bool)
      modifies this`isDeleted
      ensures isDeleted == delete
    {
      isDeleted := delete;
    }

    method SetMinSize(size: int)
      modifies this`minSize
      ensures minSize == size
    {
      minSize := size;
    }

    method SetMaxSize(size: int)
      modifies this`maxSize
      ensures maxSize == size
    {
      maxSize := size;
    }

    method SetAutoLifting(autoLifting: bool)
      modifies this`isAutoLifting
      ensures isAutoLifting == autoLifting
    {
      isAutoLifting := autoLifting;
    }

    /** Replaces the bitmap; the corner cache is not refreshed. */
    method SetStickerImage(width: nat, height: nat)
      modifies this`width, this`height
      ensures this.width == width && this.height == height
    {
      this.width, this.height := width, height;
    }

    method BringTopLayer(now: int)
      modifies this`priority
      ensures priority == Layering.Key(Layering.Front(now))
    {
      priority := now;
    }

    method BringBottomLayer(now: int)
      modifies this`priority
      ensures priority == Layering.Key(Layering.Back(now))
    {
      priority := -now;
    }

    function CompareTo(o: Sticker): (r: int)
      reads this`priority, o`priority
      ensures r == 1 <==> priority > o.priority
      ensures r == -1 <==> priority < o.priority
      ensures r == 0 <==> priority == o.priority
    {
      Layering.Compare(priority, o.priority)
    }

    method SetColorFilter(red: int, green: int, blue: int)
      modifies this`colorFilter
      ensures colorFilter == FilterFor(red, green, blue)
      ensures colorFilter.None? <==> (red == -1 || green == -1 || blue == -1)
    {
      colorFilter := FilterFor(red, green, blue);
    }

    method SetNoColorFilter()
      modifies this`colorFilter
      ensures colorFilter == None
    {
      colorFilter := None;
    }

    /** Matrix.postScale(s, s) about the origin. */
    method SetInitScale(scale: real)
      modifies this`matrix
      ensures matrix == PostScale(old(matrix), scale, scale, 0.0, 0.0)
      ensures forall p :: Apply(matrix, p) == Coord(scale * Apply(old(matrix), p).x, scale * Apply(old(matrix), p).y)
    {
      matrix := PostScale(matrix, scale, scale, 0.0, 0.0);
    }

    method SetInitTranslate(tx: real, ty: real)
      modifies this`matrix
      ensures matrix == PostTranslate(old(matrix), tx, ty)
    {
      matrix := PostTranslate(matrix, tx, ty);
    }

    /** Refills rectF with the bounding box of the mapped content and returns it. */
    method GetRectF() returns (r: Rect)
      modifies this`rectF
      ensures r == rectF && rectF == MapRect(matrix, ContentRect(width, height))
      ensures RectCenter(r) == Apply(matrix, RectCenter(ContentRect(width, height)))
    {
      rectF := MapRect(matrix, ContentRect(width, height));
      r := rectF;
      MapRectCenter(matrix, ContentRect(width, height));
    }

    /**
     * Scales about the centre of the current bounds, which is the image of
     * the content centre: that image stays where it is. The corner cache is
     * not touched, so isCanScale keeps answering from the old corners.
     */
    method PostMatrixScale(sx: real, sy: real)
      requires Valid()
      modifies this`rectF, this`matrix
      ensures rectF == MapRect(old(matrix), ContentRect(width, height))
      ensures matrix == PostScale(old(matrix), sx, sy, RectCenter(rectF).x, RectCenter(rectF).y)
      ensures Apply(matrix, RectCenter(ContentRect(width, height)))
           == Apply(old(matrix), RectCenter(ContentRect(width, height)))
      ensures forall scale: real, distance: (Coord, Coord) -> real ::
        IsCanScale(scale, distance) == old(IsCanScale(scale, distance))
    {
      var r := GetRectF();
      var center := RectCenter(r);
      matrix := PostScale(matrix, sx, sy, center.x, center.y);
      ScaleFixesPivot(sx, sy, center.x, center.y);
    }

    /** Rotates about the centre of the current bounds; the content centre's image stays where it is. */
    method PostMatrixRotate(rotation: Rotation)
      requires Valid()
      modifies this`rectF, this`matrix
      ensures rectF == MapRect(old(matrix), ContentRect(width, height))
      ensures matrix == PostRotate(old(matrix), rotation, RectCenter(rectF).x, RectCenter(rectF).y)
      ensures Apply(matrix, RectCenter(ContentRect(width, height)))
           == Apply(old(matrix), RectCenter(ContentRect(width, height)))
      ensures forall scale: real, distance: (Coord, Coord) -> real ::
        IsCanScale(scale, distance) == old(IsCanScale(scale, distance))
    {
      var r := GetRectF();
      var center := RectCenter(r);
      matrix := PostRotate(matrix, rotation, center.x, center.y);
      RotateFixesPivot(rotation, center.x, center.y);
    }

    /** Refreshes the corner cache from the matrix and the bitmap size. */
    method MapPoints()
      requires Valid()
      modifies pointMap.Values
      ensures CornersFresh()
    {
      var w, h := width as real, height as real;
      var src := [0.0, 0.0, w, 0.0, 0.0, h, w, h];
      var dst := MapPairs(matrix, src);
      assert PairAt(src, 0) == ContentCorner(width, height, TopLeft);
      assert PairAt(src, 1) == ContentCorner(width, height, TopRight);
      assert PairAt(src, 2) == ContentCorner(width, height, BottomLeft);
      assert PairAt(src, 3) == ContentCorner(width, height, BottomRight);
      assert PairAt(dst, 0) == Apply(matrix, PairAt(src, 0));
      assert PairAt(dst, 1) == Apply(matrix, PairAt(src, 1));
      assert PairAt(dst, 2) == Apply(matrix, PairAt(src, 2));
      assert PairAt(dst, 3) == Apply(matrix, PairAt(src, 3));
      pointMap[TopLeft].Set(dst[0], dst[1]);
      pointMap[TopRight].Set(dst[2], dst[3]);
      pointMap[BottomLeft].Set(dst[4], dst[5]);
      pointMap[BottomRight].Set(dst[6], dst[7]);
    }

    /** Refreshes the cache and returns its four point objects in the order TL, TR, BR, BL. */
    method GetCornerPoints() returns (points: array<Point>)
      requires Valid()
      modifies pointMap.Values
      ensures CornersFresh() && fresh(points)
      ensures points[..] == [pointMap[TopLeft], pointMap[TopRight], pointMap[BottomRight], pointMap[BottomLeft]]
      ensures forall i :: 0 <= i < 4 ==> points[i].Value() == CornerLoop(matrix, width, height)[i]
    {
      MapPoints();
      points := new Point[4] [pointMap[TopLeft], pointMap[TopRight], pointMap[BottomRight], pointMap[BottomLeft]];
    }

    /** Hit test: refreshes the corners and asks the point-in-quadrilateral test about them, in order. */
    method IsTouchIn(x: real, y: real, contains: (Coord, Coord, Coord, Coord, Coord) -> bool) returns (inside: bool)
      requires Valid()
      modifies pointMap.Values
      ensures CornersFresh()
      ensures var q := CornerLoop(matrix, width, height);
        inside == contains(q[0], q[1], q[2], q[3], Coord(x, y))
    {
      var points := GetCornerPoints();
      inside := contains(points[0].Value(), points[1].Value(), points[2].Value(), points[3].Value(), Coord(x, y));
    }

    /**
     * isCanScale: the size guard over the top edge (TL to TR) and the right
     * edge (TR to BR) of the corner cache as last refreshed. It reads the
     * corner slots and the two limits; not the matrix.
     */
    function IsCanScale(scale: real, distance: (Coord, Coord) -> real): (ok: bool)
      requires Valid()
      reads this`minSize, this`maxSize, pointMap.Values
      ensures ok == ScaleGuard.ScaleAllowed(scale,
        distance(CachedCorner(TopLeft), CachedCorner(TopRight)),
        distance(CachedCorner(TopRight), CachedCorner(BottomRight)), minSize, maxSize)
      ensures scale == 1.0 || maxSize <= 0 ==> ok
    {
      var length1 := distance(CachedCorner(TopLeft), CachedCorner(TopRight));
      var length2 := distance(CachedCorner(TopRight), CachedCorner(BottomRight));
      ScaleGuard.ScaleAllowed(scale, length1, length2, minSize, maxSize)
    }

    /** Attaches each menu to this sticker and files it under its position type; later menus overwrite. */
    method AddStickerMenu(menus: seq<StickerMenu>)
      modifies this`menuMap, set m | m in menus
      ensures menuMap == PutAll(old(menuMap), menus)
      ensures forall m :: m in menus ==> m.sticker == this
    {
      for i := 0 to |menus|
        invariant menuMap == PutAll(old(menuMap), menus[..i])
        invariant forall j :: 0 <= j < i ==> menus[j].sticker == this
      {
        menus[i].AttachSticker(this);
        assert menus[..i + 1][..i] == menus[..i];
        menuMap := menuMap[menus[i].positionType := menus[i]];
      }
      assert menus[..|menus|] == menus;
    }

    /** The menus as an array, in the sparse array's index order. */
    method GetStickerMenus() returns (menus: array<StickerMenu?>)
      ensures fresh(menus) && menus.Length == |menuMap|
      ensures forall i :: 0 <= i < menus.Length ==> menus[i] == MenusInKeyOrder(menuMap)[i]
    {
      menus := MenuArray(MenusInKeyOrder(menuMap));
    }
  }

  /** Copies a sequence of menus into a new array, as the loop filling getStickerMenus's result. */
  method MenuArray(ordered: seq<StickerMenu>) returns (menus: array<StickerMenu?>)
    ensures fresh(menus) && menus.Length == |ordered|
    ensures forall i :: 0 <= i < menus.Length ==> menus[i] == ordered[i]
  {
    menus := new StickerMenu?[|ordered|];
    for i := 0 to |ordered|
      invariant forall j :: 0 <= j < i ==> menus[j] == ordered[j]
    {
      menus[i] := ordered[i];
    }
  }

  /**
   * A session: a to the front, then b to the front, then a to the back, on
   * a positive, strictly increasing clock.
   */
  method LayeringSession(a: Sticker, b: Sticker, t1: int, t2: int, t3: int) returns (ghost between: int)
    requires a != b && 0 < t1 < t2 < t3
    modifies a`priority, b`priority
    ensures between == 1
    ensures b.priority == t2 && a.priority == -t3
    ensures a.CompareTo(b) == -1 && a.priority < t1
  {
    a.BringTopLayer(t1);
    b.BringTopLayer(t2);
    between := b.CompareTo(a);
    var before := a.priority;
    a.BringBottomLayer(t3);
    assert a.CompareTo(b) == -1 && a.priority < before;
  }
}
