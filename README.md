# Sticker model

A Dafny model of `Sticker`, the overlay object of the picture editor: an image
placed on the canvas by an affine matrix, with a cache of its four screen-space
corners, a layering priority and a three-way `compareTo`, a size guard for
scale gestures (`isCanScale`), an optional colour filter with a `-1` "no
filter" sentinel, and a map of menu buttons keyed by their position type.

Modules:

- `Geometry` (geometry.dfy): points, the affine part of the matrix
  (`Apply`, `Concat`, `PostTranslate`, `PostScale`, `PostRotate`), `MapRect`
  as the bounding box of the mapped corners, the flat `x0, y0, x1, y1, ...`
  form that `Matrix.mapPoints` works on (`MapPairs`), and the corner order
  TOP_LEFT, TOP_RIGHT, BOTTOM_RIGHT, BOTTOM_LEFT (`CornerLoop`, the reference
  definition the corner members are stated against).
- `Layering` (layering.dfy): a placement (front at a clock reading, back at a
  clock reading) and the priority it leaves; the three-way comparison; what a
  positive, increasing clock guarantees about later placements.
- `ScaleGuard` (scale_guard.dfy): the `isCanScale` decision over two edge
  lengths and the two limits, exactly as written.
- `StickerModel` (sticker.dfy): classes `Point` (one mutable corner slot),
  `StickerMenu` (position type and attached sticker) and `Sticker`, whose
  methods update its fields in place; `PutAll` and `SortedKeys` describe the
  menu map after `addStickerMenu` and the index order `getStickerMenus`
  reads it in.

The bitmap is reduced to its width and height, `System.currentTimeMillis()` to
a `now` argument, `CalculateUtils.calculateDistance` and
`CalculateUtils.isRectContainsPoint` to function arguments, and a rotation
angle to its cosine and sine.

`isCanScale` compares the *current* edges with the limits and ignores the
factor: with both edges 50 and limits 10..100, `isCanScale(2.5)` and
`isCanScale(0.1)` are both true, although the scaled edges (125 and 5) would
leave the limits (`ScaleGuard.FactorSizeIgnored`). Its shrink branch takes
`mMaxSize <= 0` as the "no limit" signal, so a minimum alone never stops
shrinking (`ScaleGuard.MinimumIgnoredWithoutMaximum`).

## Model

| member | source | states |
|---|---|---|
| `StickerModel.Sticker.constructor` | piceditor/src/main/java/com/march/piceditor/sticker/model/Sticker.java:93-103 | A new sticker has the identity matrix, priority equal to the clock reading, all flags false, both limits 0, no filter, no menus and four distinct corner point objects, all at (0, 0). |
| `StickerModel.Sticker.SetActive` | piceditor/src/main/java/com/march/piceditor/sticker/model/Sticker.java:48-50 | Sets the active flag; its frame allows no other field to change. |
| `StickerModel.Sticker.SetDelete` | piceditor/src/main/java/com/march/piceditor/sticker/model/Sticker.java:89-91 | Sets the delete flag and nothing else. |
| `StickerModel.Sticker.SetMinSize` | piceditor/src/main/java/com/march/piceditor/sticker/model/Sticker.java:190-192 | Sets the minimum size and nothing else. |
| `StickerModel.Sticker.SetMaxSize` | piceditor/src/main/java/com/march/piceditor/sticker/model/Sticker.java:194-196 | Sets the maximum size and nothing else. |
| `StickerModel.Sticker.SetAutoLifting` | piceditor/src/main/java/com/march/piceditor/sticker/model/Sticker.java:202-204 | Sets the auto-lifting flag and nothing else. |
| `StickerModel.Sticker.SetStickerImage` | piceditor/src/main/java/com/march/piceditor/sticker/model/Sticker.java:105-107 | Replaces the bitmap's size; the corner cache is left as it was. |
| `StickerModel.Sticker.BringTopLayer` | piceditor/src/main/java/com/march/piceditor/sticker/model/Sticker.java:109-111 | The priority becomes the key of a front placement at the clock reading, and nothing else changes. |
| `StickerModel.Sticker.BringBottomLayer` | piceditor/src/main/java/com/march/piceditor/sticker/model/Sticker.java:113-115 | The priority becomes the key of a back placement, the negated clock reading, and nothing else changes. |
| `StickerModel.Sticker.CompareTo` | piceditor/src/main/java/com/march/piceditor/sticker/model/Sticker.java:155-164 | Returns 1, -1 or 0 exactly when this priority is greater than, less than or equal to the other's; reads only the two priorities. |
| `Layering.Compare` | piceditor/src/main/java/com/march/piceditor/sticker/model/Sticker.java:155-164 | The three-way comparison is 1, -1, 0 exactly for greater, less, equal. |
| `Layering.CompareAntisymmetric` | piceditor/src/main/java/com/march/piceditor/sticker/model/Sticker.java:155-164 | Comparing a with b is the negation of comparing b with a. |
| `Layering.CompareTransitive` | piceditor/src/main/java/com/march/piceditor/sticker/model/Sticker.java:155-164 | "Not below" and "above" chain through a middle priority. |
| `Layering.LaterFrontWins` | piceditor/src/main/java/com/march/piceditor/sticker/model/Sticker.java:109-111 | On a positive clock, a front placement compares above every placement made earlier. |
| `Layering.LaterBackLoses` | piceditor/src/main/java/com/march/piceditor/sticker/model/Sticker.java:113-115 | On a positive clock, a back placement compares below every placement made earlier, to the front or to the back. |
| `Layering.BackBelowEveryFront` | piceditor/src/main/java/com/march/piceditor/sticker/model/Sticker.java:109-115 | On a positive clock, every back placement is below every front placement, whichever came first. |
| `Layering.LatestPlacementDecides` | piceditor/src/main/java/com/march/piceditor/sticker/model/Sticker.java:109-115 | In a session whose clock readings are positive and strictly increasing, the latest placement is above all earlier ones if it was to the front and below all of them if it was to the back. |
| `StickerModel.LayeringSession` | piceditor/src/main/java/com/march/piceditor/sticker/model/Sticker.java:109-164 | A to the front, then B to the front, then A to the back: B compares above A after the two front placements (`between == 1`), and afterwards A is below B and below its own previous priority. |
| `StickerModel.FilterFor` | piceditor/src/main/java/com/march/piceditor/sticker/model/Sticker.java:166-171 | No filter exactly when some channel is -1; otherwise the filter built from (red, green, blue). |
| `StickerModel.Sticker.SetColorFilter` | piceditor/src/main/java/com/march/piceditor/sticker/model/Sticker.java:166-171 | Stores the filter the sentinel rule gives and changes nothing else. |
| `StickerModel.Sticker.SetNoColorFilter` | piceditor/src/main/java/com/march/piceditor/sticker/model/Sticker.java:173-175 | Always leaves no filter, so calling it again changes nothing. |
| `ScaleGuard.ScaleAllowed` | piceditor/src/main/java/com/march/piceditor/sticker/model/Sticker.java:225-231 | Factor 1 is always allowed; growing is allowed iff no maximum is set or both edges are below it; shrinking iff no maximum is set or both edges are above the minimum. |
| `ScaleGuard.NoMaximumAllowsEverything` | piceditor/src/main/java/com/march/piceditor/sticker/model/Sticker.java:225-231 | With the maximum at or below 0 every factor is allowed. |
| `ScaleGuard.MinimumIgnoredWithoutMaximum` | piceditor/src/main/java/com/march/piceditor/sticker/model/Sticker.java:228-230 | With a minimum of 10 and no maximum, edges of 5 may still shrink. |
| `ScaleGuard.LimitsBlock` | piceditor/src/main/java/com/march/piceditor/sticker/model/Sticker.java:225-230 | With a maximum set, growth is refused once an edge reaches it, and shrinking once an edge is down to the minimum. |
| `ScaleGuard.FactorSizeIgnored` | piceditor/src/main/java/com/march/piceditor/sticker/model/Sticker.java:222-231 | For edges 50 and limits 10..100, factors 2.5, 1.5 and 0.1 are all allowed; with one edge at 100, growth is refused. |
| `StickerModel.Sticker.IsCanScale` | piceditor/src/main/java/com/march/piceditor/sticker/model/Sticker.java:222-232 | The guard applied to the distances TL-TR and TR-BR of the cached corners and the two limits; its frame excludes the matrix; factor 1 or no maximum always passes. |
| `Geometry.MapPairs` | piceditor/src/main/java/com/march/piceditor/sticker/model/Sticker.java:125-132 | Mapping a flat coordinate array gives an array of the same length whose i-th pair is the image of the i-th source pair. |
| `StickerModel.Sticker.MapPoints` | piceditor/src/main/java/com/march/piceditor/sticker/model/Sticker.java:123-138 | Afterwards every corner slot holds the image of its content corner, (0,0), (w,0), (0,h), (w,h), under the current matrix; only the point objects change. |
| `StickerModel.Sticker.GetCornerPoints` | piceditor/src/main/java/com/march/piceditor/sticker/model/Sticker.java:75-83 | Refreshes the cache, then returns a new four-element array of the cached point objects in the order TL, TR, BR, BL, holding the mapped corners. |
| `Geometry.CornerLoopInBounds` | piceditor/src/main/java/com/march/piceditor/sticker/model/Sticker.java:117-121 | Each of the four corners `getCornerPoints` reports lies inside the box `getRectF` computes from the same matrix and size. |
| `Geometry.CornerLoopIsParallelogram` | piceditor/src/main/java/com/march/piceditor/sticker/model/Sticker.java:75-83 | Under any matrix the returned order goes round a parallelogram: opposite edges are equal and both diagonals meet at the image of the content centre. |
| `Geometry.CornerLoopIdentity` | piceditor/src/main/java/com/march/piceditor/sticker/model/Sticker.java:75-103 | With the matrix a new sticker starts with, the corners are (0,0), (w,0), (w,h), (0,h). |
| `StickerModel.Sticker.IsTouchIn` | piceditor/src/main/java/com/march/piceditor/sticker/model/Sticker.java:148-153 | Refreshes the corners and returns the containment test's answer for them, in order TL, TR, BR, BL, and the touch point. |
| `Geometry.MapRect` | piceditor/src/main/java/com/march/piceditor/sticker/model/Sticker.java:117-121 | The mapped rectangle contains the four mapped corners and each of its sides touches one of them. |
| `StickerModel.Sticker.GetRectF` | piceditor/src/main/java/com/march/piceditor/sticker/model/Sticker.java:117-121 | Refills the rectangle field with the bounds of the mapped content and returns it; its centre is the image of the content centre. |
| `Geometry.MapRectCenter` | piceditor/src/main/java/com/march/piceditor/sticker/model/Sticker.java:207-219 | The centre of the mapped bounds is the image of the rectangle's centre, whatever rotation or skew the matrix holds. |
| `Geometry.PostTranslate` | piceditor/src/main/java/com/march/piceditor/sticker/model/Sticker.java:185-188 | Every point's image is its old image moved by (dx, dy). |
| `Geometry.PostScale` | piceditor/src/main/java/com/march/piceditor/sticker/model/Sticker.java:207-212 | Every point's image is its old image scaled about the pivot. |
| `Geometry.PostRotate` | piceditor/src/main/java/com/march/piceditor/sticker/model/Sticker.java:214-219 | Every point's image is its old image rotated about the pivot. |
| `Geometry.ApplyConcat` | piceditor/src/main/java/com/march/piceditor/sticker/model/Sticker.java:181-219 | Post-multiplying composes: mapping through the product is mapping through the old matrix, then the new operation. |
| `Geometry.ScaleFixesPivot` | piceditor/src/main/java/com/march/piceditor/sticker/model/Sticker.java:207-212 | The pivot of a scale stays in place. |
| `Geometry.RotateFixesPivot` | piceditor/src/main/java/com/march/piceditor/sticker/model/Sticker.java:214-219 | The pivot of a rotation stays in place. |
| `Geometry.ScaleAboutComposes` | piceditor/src/main/java/com/march/piceditor/sticker/model/Sticker.java:207-212 | Two scales about one pivot are one scale about it by the products of the factors. |
| `Geometry.PostScaleComposes` | piceditor/src/main/java/com/march/piceditor/sticker/model/Sticker.java:207-212 | Two successive post-scales about one pivot map every point as one post-scale by the products. |
| `StickerModel.Sticker.SetInitScale` | piceditor/src/main/java/com/march/piceditor/sticker/model/Sticker.java:181-183 | Post-scales the matrix by the factor about the origin: every image is multiplied by it. |
| `StickerModel.Sticker.SetInitTranslate` | piceditor/src/main/java/com/march/piceditor/sticker/model/Sticker.java:185-188 | Post-translates the matrix by (tx, ty). |
| `StickerModel.Sticker.PostMatrixScale` | piceditor/src/main/java/com/march/piceditor/sticker/model/Sticker.java:207-212 | Scales about the centre of the current bounds, so the image of the content centre does not move; the corner cache and isCanScale's answers are unchanged. |
| `StickerModel.Sticker.PostMatrixRotate` | piceditor/src/main/java/com/march/piceditor/sticker/model/Sticker.java:214-219 | Rotates about the centre of the current bounds, so the image of the content centre does not move; the corner cache and isCanScale's answers are unchanged. |
| `StickerModel.Sticker.AddStickerMenu` | piceditor/src/main/java/com/march/piceditor/sticker/model/Sticker.java:60-65 | The menu map becomes the old map with each menu put under its position type in order, and every added menu is attached to this sticker. |
| `StickerModel.PutAllKeys` | piceditor/src/main/java/com/march/piceditor/sticker/model/Sticker.java:60-65 | A position type is in the new map iff it was in the old map or some added menu has it. |
| `StickerModel.PutAllLastWins` | piceditor/src/main/java/com/march/piceditor/sticker/model/Sticker.java:60-65 | A position type holds the last added menu that has it: later entries overwrite earlier ones. |
| `StickerModel.PutAllKeepsOthers` | piceditor/src/main/java/com/march/piceditor/sticker/model/Sticker.java:60-65 | A position type that no added menu has keeps its old menu. |
| `StickerModel.PutAllValues` | piceditor/src/main/java/com/march/piceditor/sticker/model/Sticker.java:60-65 | Every menu in the new map was in the old map or is one of the added menus. |
| `StickerModel.SortedKeys` | piceditor/src/main/java/com/march/piceditor/sticker/model/Sticker.java:67-73 | The keys in the sparse array's index order: each key exactly once, ascending. |
| `StickerModel.MenusInKeyOrderAreValues` | piceditor/src/main/java/com/march/piceditor/sticker/model/Sticker.java:67-73 | The menus in index order are as many as the map's entries and are exactly its values. |
| `StickerModel.Sticker.GetStickerMenus` | piceditor/src/main/java/com/march/piceditor/sticker/model/Sticker.java:67-73 | Returns a new array as long as the map whose i-th element is the menu filed under the i-th smallest key (valueAt(i)); with `MenusInKeyOrderAreValues`, the elements are exactly the map's menus. |
| `StickerModel.MenuArray` | piceditor/src/main/java/com/march/piceditor/sticker/model/Sticker.java:69-71 | The copying loop: a new array holding the given menus in the given order. |
| `StickerModel.MenusInKeyOrder` | piceditor/src/main/java/com/march/piceditor/sticker/model/Sticker.java:67-73 | One menu per key, the i-th being the map's value at the i-th ascending key. |

## Left out

- Bitmap decoding and the Android `Context` of the public constructor: the model's constructor takes the bitmap's width and height and the clock reading.
- `System.currentTimeMillis()`: the clock reading is an argument. The ordering lemmas assume it is positive (and increasing where they compare two placements); 64-bit wrap-around of the priority and of its negation is not modelled, since a positive clock reading never reaches it.
- The internals of `android.graphics.Matrix`: the model keeps only its affine part as a value of reals (no perspective row, no float rounding, no NaN or infinity). `getMatrix()` hands out the matrix object itself; that aliasing is not modelled.
- The angle of `postRotate`: a rotation is given by its cosine and sine, because the degrees-to-trigonometry step is floating point library code.
- `CalculateUtils.calculateDistance` and `CalculateUtils.isRectContainsPoint` are not part of this model; they are passed in as functions.
- StickerModel.Sticker.IsTouchIn: states only that it refreshes the corners and delegates to the containment test, because that test is not part of this model.
- `Utils.buildColorFilter` and `ColorMatrixColorFilter`: a filter is an opaque value recording the (red, green, blue) it was built from.
- `StickerMenu` internals: a menu is its position type and the sticker it is attached to.
- `SparseArray`'s storage (sorted key array with binary search): the menu map is a `map`, and `valueAt(i)` is the value under the i-th key in ascending order.
- `com.march.piceditor.common.model.Point` is not part of this model; a point is two mutable coordinates with a `set` operation and (0, 0) as its initial value.
- References handed out and null arguments: `getRectF` returns the `mRectF` object itself and `getPointMap`/`getMenuMap` return the live sparse arrays, while the model returns a `Rect` value and has no such getters; a null element given to `addStickerMenu` throws a NullPointerException, which the non-null `seq<StickerMenu>` rules out. Nothing in the modelled behaviour depends on either.
- The getters (`isActive`, `isDelete`, `getStickerImage`, `getMatrix`, `getPointMap`, `getMenuMap`, `getColorFilter`, `isAutoLifting`) are plain field reads and have no members of their own.
