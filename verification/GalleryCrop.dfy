/**
  Annotations seen through an image crop: shown in crop coordinates, merged back into the original's.
  Coordinates are ten-thousandths of the image; scaling is exact, rounding is to the nearest integer.
 */
module GalleryCrop {
  import opened Options

  datatype Crop = Crop(x: nat, y: nat, width: nat, height: nat)

  datatype Point = Point(x: int, y: int)

  datatype Shape =
    | NoShape
    | Rect
    | Strike
    | Freehand(points: seq<Point>, closed: bool)
    | Arrow(points: seq<Point>, startHead: string, endHead: string)
    | Insertion(point: Point)

  /** `rest` stands for the fields that pass through untouched. */
  datatype Annotation = Annotation(id: string, x: int, y: int, width: int, height: int, shape: Shape, rest: string)

  const FULL: int := 10_000

  /** `Math.round` */
  function Round(v: real): int {
    (v + 0.5).Floor
  }

  function Clamp(v: real): int {
    Max(0, Min(FULL, Round(v)))
  }

  /** One axis of the crop: its start in the original, and the scales into the crop and back. */
  datatype Axis = Axis(start: real, zoom: real, shrink: real)

  function AxisOf(offset: nat, length: nat, whole: nat): Axis
    requires length > 0 && whole > 0
  {
    Axis(offset as real * 10_000.0 / whole as real, whole as real / length as real, length as real / whole as real)
  }

  /** The crop lies inside the original. */
  ghost predicate InFrame(a: Axis) {
    0.0 < a.shrink && a.zoom * a.shrink == 1.0 && a.start >= 0.0 && a.start + 10_000.0 * a.shrink <= 10_000.0
  }

  lemma Quotient(a: real, b: real)
    requires b > 0.0
    ensures a / b * b == a && (a >= 0.0 ==> a / b >= 0.0) && (a > 0.0 ==> a / b > 0.0)
  {
  }

  lemma QuotientAtMost(a: real, b: real, c: real)
    requires b > 0.0 && a <= c * b
    ensures a / b <= c
  {
    var q := a / b;
    assert q * b == a;
    assert (c - q) * b >= 0.0;
  }

  lemma Reciprocal(a: real, b: real)
    requires a > 0.0 && b > 0.0
    ensures (a / b) * (b / a) == 1.0
  {
    var x, y := a / b, b / a;
    assert x * b == a && y * a == b;
    assert x * y * a == x * (y * a) == x * b;
    Cancel(x * y, 1.0, a);
  }

  lemma Cancel(x: real, y: real, a: real)
    requires a > 0.0 && x * a == y * a
    ensures x == y
  {
    assert (x - y) * a == 0.0;
  }

  /** A crop inside the image starts and ends inside the original's coordinates. */
  lemma InsideIsInFrame(offset: nat, length: nat, whole: nat)
    requires 0 < length && offset + length <= whole
    ensures InFrame(AxisOf(offset, length, whole))
  {
    var o, l, w := offset as real, length as real, whole as real;
    Quotient(l, w);
    Quotient(o * 10_000.0, w);
    Reciprocal(w, l);
    assert (o * 10_000.0 / w + 10_000.0 * (l / w)) == (o + l) * 10_000.0 / w by { SumOfQuotients(o, l, w); }
    QuotientAtMost((o + l) * 10_000.0, w, 10_000.0);
  }

  lemma SumOfQuotients(o: real, l: real, w: real)
    requires w > 0.0
    ensures o * 10_000.0 / w + 10_000.0 * (l / w) == (o + l) * 10_000.0 / w
  {
    var p, q := o * 10_000.0 / w, l / w;
    assert p * w == o * 10_000.0 && q * w == l;
    assert (p + 10_000.0 * q) * w == (o + l) * 10_000.0;
    Quotient((o + l) * 10_000.0, w);
    Cancel(p + 10_000.0 * q, (o + l) * 10_000.0 / w, w);
  }

  /** Into crop coordinates, and back into the original's. */
  function Into(a: Axis, v: real): real {
    (v - a.start) * a.zoom
  }

  function Back(a: Axis, v: real): real {
    a.start + v * a.shrink
  }

  // ---- how far a coordinate moves ---------------------------------------------------------------

  function Abs(v: real): real {
    if v < 0.0 then -v else v
  }

  lemma RoundIsNear(v: real)
    ensures Abs(Round(v) as real - v) <= 0.5
  {
  }

  lemma RoundInRange(v: real)
    requires 0.0 <= v <= 10_000.0
    ensures 0 <= Round(v) <= FULL && Clamp(v) == Round(v)
  {
  }

  lemma BackInRange(a: Axis, d: int)
    requires InFrame(a) && 0 <= d <= FULL
    ensures 0.0 <= Back(a, d as real) <= 10_000.0
  {
    assert 0.0 <= d as real * a.shrink <= 10_000.0 * a.shrink by {
      assert (10_000.0 - d as real) * a.shrink >= 0.0;
    }
  }

  /** Rounding to a whole number inside the range brings no coordinate of the range further away. */
  lemma ClampIsNear(v: real, d: int, e: real)
    requires 0 <= d <= FULL && Abs(v - d as real) <= e
    ensures Abs(Clamp(v) as real - d as real) <= e + 0.5
  {
    RoundIsNear(v);
  }

  lemma Stretch(a: Axis, o: int, d: int, e: real)
    requires InFrame(a) && Abs(o as real - Back(a, d as real)) <= e
    ensures Abs(Into(a, o as real) - d as real) <= e * a.zoom
  {
    var z, t, x := a.zoom, o as real - Back(a, d as real), d as real;
    assert z > 0.0 by { assert z * a.shrink == 1.0; }
    assert Into(a, o as real) - x == t * z by {
      assert (o as real - a.start) * z == (t + x * a.shrink) * z;
      assert (t + x * a.shrink) * z == t * z + x * (a.shrink * z);
    }
    assert -e * z <= t * z <= e * z by {
      assert (e - t) * z >= 0.0 && (e + t) * z >= 0.0;
    }
  }

  /** Shown coordinate to original and back: it moves by at most half the zoom plus one half. */
  lemma ThereAndBack(a: Axis, d: int)
    requires InFrame(a) && 0 <= d <= FULL
    ensures var o := Clamp(Back(a, d as real));
            0 <= o <= FULL && Abs(Clamp(Into(a, o as real)) as real - d as real) <= a.zoom / 2.0 + 0.5
  {
    var v := Back(a, d as real);
    BackInRange(a, d);
    RoundInRange(v);
    RoundIsNear(v);
    var o := Clamp(v);
    Stretch(a, o, d, 0.5);
    ClampIsNear(Into(a, o as real), d, 0.5 * a.zoom);
  }

  // ---- mapping one annotation ---------------------------------------------------------------------

  function MapPoint(p: Point, mx: real -> real, my: real -> real): Point {
    Point(Clamp(mx(p.x as real)), Clamp(my(p.y as real)))
  }

  function MapPoints(ps: seq<Point>, mx: real -> real, my: real -> real): (r: seq<Point>)
    ensures |r| == |ps| && forall i :: 0 <= i < |r| ==> r[i] == MapPoint(ps[i], mx, my)
  {
    seq(|ps|, i requires 0 <= i < |ps| => MapPoint(ps[i], mx, my))
  }

  function MapShape(shape: Shape, mx: real -> real, my: real -> real): Shape {
    match shape
    case Freehand(points, closed) => Freehand(MapPoints(points, mx, my), closed)
    case Arrow(points, startHead, endHead) => Arrow(MapPoints(points, mx, my), startHead, endHead)
    case Insertion(point) => Insertion(MapPoint(point, mx, my))
    case _ => shape
  }

  function PointsOf(shape: Shape): seq<Point> {
    match shape
    case Freehand(points, _) => points
    case Arrow(points, _, _) => points
    case Insertion(point) => [point]
    case _ => []
  }

  function Xs(ps: seq<Point>): (r: seq<int>)
    ensures |r| == |ps| && forall i :: 0 <= i < |r| ==> r[i] == ps[i].x
  {
    seq(|ps|, i requires 0 <= i < |ps| => ps[i].x)
  }

  function Ys(ps: seq<Point>): (r: seq<int>)
    ensures |r| == |ps| && forall i :: 0 <= i < |r| ==> r[i] == ps[i].y
  {
    seq(|ps|, i requires 0 <= i < |ps| => ps[i].y)
  }

  function Lowest(vs: seq<int>): (m: int)
    requires vs != []
    ensures m in vs && forall i :: 0 <= i < |vs| ==> m <= vs[i]
  {
    if |vs| == 1 then vs[0] else Min(vs[0], Lowest(vs[1..]))
  }

  function Highest(vs: seq<int>): (m: int)
    requires vs != []
    ensures m in vs && forall i :: 0 <= i < |vs| ==> m >= vs[i]
  {
    if |vs| == 1 then vs[0] else Max(vs[0], Highest(vs[1..]))
  }

  /** Start and length of an interval on one axis. */
  datatype Extent = Extent(start: int, length: int)

  function PointExtent(vs: seq<int>): Extent
    requires vs != []
  {
    var start := Min(Lowest(vs), FULL - 1);
    Extent(start, Max(Highest(vs), start + 1) - start)
  }

  function Scaled(length: int, scale: real): real {
    length as real * scale
  }

  function Edge(v: real, clip: bool): int {
    if clip then Clamp(v) else Round(v)
  }

  /** The mapped interval, at least one wide and ending inside the image. */
  function BoxExtent(origin: real, length: real, clip: bool): Extent {
    var at := Edge(origin, clip);
    var size := Max(1, Edge(origin + length, clip) - at);
    var start := Min(at, FULL - 1);
    Extent(start, Min(size, FULL - start))
  }

  function MapAnnotation(item: Annotation, mx: real -> real, my: real -> real, sx: real, sy: real, clip: bool): Annotation {
    var shape := MapShape(item.shape, mx, my);
    var points := PointsOf(shape);
    var across := if points != [] then PointExtent(Xs(points)) else BoxExtent(mx(item.x as real), Scaled(item.width, sx), clip);
    var down := if points != [] then PointExtent(Ys(points)) else BoxExtent(my(item.y as real), Scaled(item.height, sy), clip);
    item.(x := across.start, y := down.start, width := across.length, height := down.length, shape := shape)
  }

  function ShowOne(item: Annotation, ax: Axis, ay: Axis): Annotation {
    MapAnnotation(item, v => Into(ax, v), v => Into(ay, v), ax.zoom, ay.zoom, true)
  }

  function RestoreOne(item: Annotation, ax: Axis, ay: Axis): Annotation {
    MapAnnotation(item, v => Back(ax, v), v => Back(ay, v), ax.shrink, ay.shrink, false)
  }

  // ---- the lens -------------------------------------------------------------------------------------

  predicate Overlaps(at: int, length: int, a: Axis)
    requires a.zoom != 0.0
  {
    at as real < a.start + 10_000.0 / a.zoom && (at + length) as real > a.start
  }

  predicate Visible(item: Annotation, ax: Axis, ay: Axis)
    requires ax.zoom != 0.0 && ay.zoom != 0.0
  {
    Overlaps(item.x, item.width, ax) && Overlaps(item.y, item.height, ay)
  }

  function Shown(items: seq<Annotation>, ax: Axis, ay: Axis): seq<Annotation>
    requires ax.zoom != 0.0 && ay.zoom != 0.0
  {
    if items == [] then []
    else
      var before, item := Shown(items[..|items| - 1], ax, ay), items[|items| - 1];
      if Visible(item, ax, ay) then before + [ShowOne(item, ax, ay)] else before
  }

  /** A later item with the same id wins. */
  function ById(items: seq<Annotation>): map<string, Annotation> {
    if items == [] then map[] else ById(items[..|items| - 1])[items[|items| - 1].id := items[|items| - 1]]
  }

  function Ids(items: seq<Annotation>): set<string> {
    set i | 0 <= i < |items| :: items[i].id
  }

  /** What becomes of one original annotation: kept, deleted, or replaced by its edit. */
  function MergeOne(item: Annotation, visible: map<string, Annotation>, displayed: map<string, Annotation>, ax: Axis, ay: Axis): seq<Annotation> {
    if item.id !in visible then [item]
    else if item.id !in displayed then []
    else if visible[item.id] == displayed[item.id] then [item]
    else [RestoreOne(displayed[item.id], ax, ay)]
  }

  function Merge(original: seq<Annotation>, visible: map<string, Annotation>, displayed: map<string, Annotation>, ax: Axis, ay: Axis): seq<Annotation> {
    if original == [] then []
    else
      Merge(original[..|original| - 1], visible, displayed, ax, ay)
      + MergeOne(original[|original| - 1], visible, displayed, ax, ay)
  }

  /** The displayed annotations that are new, in original coordinates. */
  function Additions(displayed: seq<Annotation>, known: set<string>, ax: Axis, ay: Axis): seq<Annotation> {
    if displayed == [] then []
    else
      var before, item := Additions(displayed[..|displayed| - 1], known, ax, ay), displayed[|displayed| - 1];
      if item.id in known then before else before + [RestoreOne(item, ax, ay)]
  }

  function Restored(original: seq<Annotation>, displayed: seq<Annotation>, ax: Axis, ay: Axis): seq<Annotation>
    requires ax.zoom != 0.0 && ay.zoom != 0.0
  {
    Merge(original, ById(Shown(original, ax, ay)), ById(displayed), ax, ay) + Additions(displayed, Ids(original), ax, ay)
  }

  /** A crop that takes effect: there is one and the image has a size. */
  predicate Cropped(crop: Option<Crop>, width: nat, height: nat) {
    crop.Some? && width > 0 && height > 0
  }

  predicate Usable(crop: Option<Crop>) {
    crop.Some? ==> crop.value.width > 0 && crop.value.height > 0
  }

  function AcrossOf(crop: Crop, width: nat): (a: Axis)
    requires crop.width > 0 && width > 0
    ensures a.zoom != 0.0
  {
    Quotient(width as real, crop.width as real);
    AxisOf(crop.x, crop.width, width)
  }

  function DownOf(crop: Crop, height: nat): (a: Axis)
    requires crop.height > 0 && height > 0
    ensures a.zoom != 0.0
  {
    Quotient(height as real, crop.height as real);
    AxisOf(crop.y, crop.height, height)
  }

  function ProjectGalleryAnnotations(items: seq<Annotation>, crop: Option<Crop>, width: nat, height: nat): seq<Annotation>
    requires Usable(crop)
  {
    if !Cropped(crop, width, height) then items
    else Shown(items, AcrossOf(crop.value, width), DownOf(crop.value, height))
  }

  function RestoreGalleryAnnotations(original: seq<Annotation>, displayed: seq<Annotation>, crop: Option<Crop>, width: nat, height: nat): seq<Annotation>
    requires Usable(crop)
  {
    if !Cropped(crop, width, height) then displayed
    else Restored(original, displayed, AcrossOf(crop.value, width), DownOf(crop.value, height))
  }

  /** Merging back as the source writes it. */
  method MergeBack(original: seq<Annotation>, displayed: seq<Annotation>, ax: Axis, ay: Axis) returns (result: seq<Annotation>)
    requires ax.zoom != 0.0 && ay.zoom != 0.0
    ensures result == Restored(original, displayed, ax, ay)
  {
    hide RestoreOne;
    var visibleById, displayedById, originalIds := ById(Shown(original, ax, ay)), ById(displayed), Ids(original);
    result := [];
    for i := 0 to |original|
      invariant result == Merge(original[..i], visibleById, displayedById, ax, ay)
    {
      assert original[..i + 1][..i] == original[..i];
      var canonical := original[i];
      if canonical.id !in visibleById {
        result := result + [canonical];
      } else if canonical.id in displayedById {
        var edited := displayedById[canonical.id];
        result := result + [if visibleById[canonical.id] == edited then canonical else RestoreOne(edited, ax, ay)];
      }
    }
    assert original[..|original|] == original;
    ghost var merged := result;
    for i := 0 to |displayed|
      invariant result == merged + Additions(displayed[..i], originalIds, ax, ay)
    {
      assert displayed[..i + 1][..i] == displayed[..i];
      if displayed[i].id !in originalIds {
        result := result + [RestoreOne(displayed[i], ax, ay)];
      }
    }
    assert displayed[..|displayed|] == displayed;
  }

  // ---- laws -------------------------------------------------------------------------------------------

  lemma {:induction false} ByIdKeys(items: seq<Annotation>)
    ensures ById(items).Keys == Ids(items)
    ensures forall id :: id in ById(items) ==> ById(items)[id].id == id && ById(items)[id] in items
  {
    if items != [] {
      var front, last := items[..|items| - 1], items[|items| - 1];
      ByIdKeys(front);
      assert items == front + [last];
      IdsMore(front, last);
    }
  }

  lemma IdsMore(items: seq<Annotation>, item: Annotation)
    ensures Ids(items + [item]) == Ids(items) + {item.id}
  {
    var more := items + [item];
    forall id ensures id in Ids(more) <==> id in Ids(items) + {item.id} {
      if id in Ids(items) {
        var i :| 0 <= i < |items| && items[i].id == id;
        assert more[i].id == id;
      }
      assert more[|items|].id == item.id;
    }
  }

  lemma {:induction false} ShownIds(items: seq<Annotation>, ax: Axis, ay: Axis)
    requires ax.zoom != 0.0 && ay.zoom != 0.0
    ensures Ids(Shown(items, ax, ay)) <= Ids(items)
  {
    hide ShowOne, Visible;
    if items != [] {
      var front, last := items[..|items| - 1], items[|items| - 1];
      ShownIds(front, ax, ay);
      assert items == front + [last];
      IdsMore(front, last);
      ShowKeepsId(last, ax, ay);
      IdsMore(Shown(front, ax, ay), ShowOne(last, ax, ay));
    }
  }

  lemma ShowKeepsId(item: Annotation, ax: Axis, ay: Axis)
    ensures ShowOne(item, ax, ay).id == item.id && RestoreOne(item, ax, ay).id == item.id
  {
  }

  lemma {:induction false} MergeUnedited(original: seq<Annotation>, shown: map<string, Annotation>, ax: Axis, ay: Axis)
    ensures Merge(original, shown, shown, ax, ay) == original
  {
    hide RestoreOne;
    if original != [] {
      MergeUnedited(original[..|original| - 1], shown, ax, ay);
      assert original[..|original| - 1] + [original[|original| - 1]] == original;
    }
  }

  lemma {:induction false} NothingAdded(displayed: seq<Annotation>, known: set<string>, ax: Axis, ay: Axis)
    requires Ids(displayed) <= known
    ensures Additions(displayed, known, ax, ay) == []
  {
    if displayed != [] {
      var front, last := displayed[..|displayed| - 1], displayed[|displayed| - 1];
      assert displayed == front + [last];
      IdsMore(front, last);
      NothingAdded(front, known, ax, ay);
    }
  }

  /** Restoring what was shown, unedited, gives back the original list, whatever its ids are. */
  lemma UneditedViewRestoresTheOriginal(original: seq<Annotation>, crop: Option<Crop>, width: nat, height: nat)
    requires Usable(crop)
    ensures RestoreGalleryAnnotations(original, ProjectGalleryAnnotations(original, crop, width, height), crop, width, height) == original
  {
    hide Shown, RestoreOne;
    if Cropped(crop, width, height) {
      var ax, ay := AcrossOf(crop.value, width), DownOf(crop.value, height);
      var shown := Shown(original, ax, ay);
      ShownIds(original, ax, ay);
      MergeUnedited(original, ById(shown), ax, ay);
      NothingAdded(shown, Ids(original), ax, ay);
    }
  }

  lemma {:induction false} MergeMembers(original: seq<Annotation>, visible: map<string, Annotation>, displayed: map<string, Annotation>, ax: Axis, ay: Axis)
    ensures forall item :: item in original && item.id !in visible ==> item in Merge(original, visible, displayed, ax, ay)
    ensures displayed == map[] ==> forall item :: item in Merge(original, visible, displayed, ax, ay) ==> item.id !in visible
  {
    hide RestoreOne;
    if original != [] {
      MergeMembers(original[..|original| - 1], visible, displayed, ax, ay);
      assert original == original[..|original| - 1] + [original[|original| - 1]];
    }
  }

  /** An original mark survives every edit of the view exactly when no mark with its id is shown. */
  lemma HiddenMarksSurviveEveryEdit(original: seq<Annotation>, item: Annotation, ax: Axis, ay: Axis)
    requires ax.zoom != 0.0 && ay.zoom != 0.0 && item in original
    ensures (forall displayed :: item in Restored(original, displayed, ax, ay)) <==> item.id !in Ids(Shown(original, ax, ay))
  {
    hide Shown, RestoreOne;
    var visible := ById(Shown(original, ax, ay));
    ByIdKeys(Shown(original, ax, ay));
    if item.id !in visible {
      forall displayed ensures item in Restored(original, displayed, ax, ay) {
        MergeMembers(original, visible, ById(displayed), ax, ay);
      }
    } else {
      MergeMembers(original, visible, map[], ax, ay);
      assert Restored(original, [], ax, ay) == Merge(original, visible, map[], ax, ay) by { assert Additions([], Ids(original), ax, ay) == []; }
      assert item !in Restored(original, [], ax, ay);
    }
  }

  lemma NewId(front: seq<Annotation>, last: Annotation)
    ensures (forall i :: 0 <= i < |front| ==> front[i].id != last.id) ==> last.id !in Ids(front)
    ensures forall i :: 0 <= i < |front| ==> front[i].id in Ids(front)
  {
  }

  /** With unique ids a mark that is not itself visible shares its id with none that is. */
  lemma {:induction false} UniqueIdsHide(original: seq<Annotation>, k: nat, ax: Axis, ay: Axis)
    requires ax.zoom != 0.0 && ay.zoom != 0.0 && k < |original| && !Visible(original[k], ax, ay)
    requires forall i, j :: 0 <= i < j < |original| ==> original[i].id != original[j].id
    ensures original[k].id !in Ids(Shown(original, ax, ay))
  {
    hide ShowOne, Visible, Ids;
    var n := |original| - 1;
    var front, last := original[..n], original[n];
    assert original == front + [last];
    NewId(front, last);
    IdsMore(front, last);
    ShowKeepsId(last, ax, ay);
    IdsMore(Shown(front, ax, ay), ShowOne(last, ax, ay));
    if k < n {
      UniqueIdsHide(front, k, ax, ay);
    } else {
      ShownIds(front, ax, ay);
    }
  }

  lemma {:induction false} MergeIds(original: seq<Annotation>, visible: map<string, Annotation>, displayed: map<string, Annotation>, ax: Axis, ay: Axis)
    requires forall id :: id in displayed ==> displayed[id].id == id
    ensures Ids(Merge(original, visible, displayed, ax, ay))
         == set id | id in Ids(original) && (id !in visible || id in displayed)
  {
    hide RestoreOne;
    if original != [] {
      var front, last := original[..|original| - 1], original[|original| - 1];
      MergeIds(front, visible, displayed, ax, ay);
      assert original == front + [last];
      IdsMore(front, last);
      var one := MergeOne(last, visible, displayed, ax, ay);
      assert Merge(front, visible, displayed, ax, ay) + [] == Merge(front, visible, displayed, ax, ay);
      if one != [] {
        assert one[0].id == last.id by { if last.id in displayed { ShowKeepsId(displayed[last.id], ax, ay); } }
        assert one == [one[0]];
        IdsMore(Merge(front, visible, displayed, ax, ay), one[0]);
      }
    }
  }

  lemma {:induction false} AdditionIds(displayed: seq<Annotation>, known: set<string>, ax: Axis, ay: Axis)
    ensures Ids(Additions(displayed, known, ax, ay)) == Ids(displayed) - known
  {
    hide RestoreOne;
    if displayed != [] {
      var front, last := displayed[..|displayed| - 1], displayed[|displayed| - 1];
      AdditionIds(front, known, ax, ay);
      assert displayed == front + [last];
      IdsMore(front, last);
      ShowKeepsId(last, ax, ay);
      IdsMore(Additions(front, known, ax, ay), RestoreOne(last, ax, ay));
    }
  }

  lemma IdsOfBoth(a: seq<Annotation>, b: seq<Annotation>)
    ensures Ids(a + b) == Ids(a) + Ids(b)
  {
    var both := a + b;
    forall id ensures id in Ids(both) <==> id in Ids(a) + Ids(b) {
      if id in Ids(a) {
        var i :| 0 <= i < |a| && a[i].id == id;
        assert both[i].id == id;
      }
      if id in Ids(b) {
        var i :| 0 <= i < |b| && b[i].id == id;
        assert both[|a| + i].id == id;
      }
    }
  }

  /**
    Which marks there are after merging back: the ones that were not shown, the shown ones still
    displayed, and the displayed ones that are new; so a deletion in the view deletes, an addition adds.
   */
  lemma RestoredIds(original: seq<Annotation>, displayed: seq<Annotation>, ax: Axis, ay: Axis, id: string)
    requires ax.zoom != 0.0 && ay.zoom != 0.0
    ensures id in Ids(Restored(original, displayed, ax, ay)) <==>
            if id in Ids(original) then id !in Ids(Shown(original, ax, ay)) || id in Ids(displayed) else id in Ids(displayed)
  {
    hide Shown, Merge, Additions;
    var visible := ById(Shown(original, ax, ay));
    ByIdKeys(Shown(original, ax, ay));
    ByIdKeys(displayed);
    MergeIds(original, visible, ById(displayed), ax, ay);
    AdditionIds(displayed, Ids(original), ax, ay);
    IdsOfBoth(Merge(original, visible, ById(displayed), ax, ay), Additions(displayed, Ids(original), ax, ay));
  }

  // ---- ranges -----------------------------------------------------------------------------------------

  predicate FitsAxis(at: int, length: int) {
    0 <= at && 1 <= length && at + length <= FULL
  }

  predicate InRange(p: Point) {
    0 <= p.x <= FULL && 0 <= p.y <= FULL
  }

  /** A mark inside the image: its box at least one unit wide and high, every point of its shape in range. */
  ghost predicate Fits(item: Annotation) {
    && FitsAxis(item.x, item.width) && FitsAxis(item.y, item.height)
    && forall p :: p in PointsOf(item.shape) ==> InRange(p)
  }

  lemma PointExtentFits(vs: seq<int>)
    requires vs != [] && forall i :: 0 <= i < |vs| ==> 0 <= vs[i] <= FULL
    ensures FitsAxis(PointExtent(vs).start, PointExtent(vs).length)
  {
  }

  /** What mapping does to a mark without points. */
  lemma MappedBox(item: Annotation, mx: real -> real, my: real -> real, sx: real, sy: real, clip: bool)
    requires PointsOf(item.shape) == []
    ensures var r := MapAnnotation(item, mx, my, sx, sy, clip);
            var across, down := BoxExtent(mx(item.x as real), Scaled(item.width, sx), clip), BoxExtent(my(item.y as real), Scaled(item.height, sy), clip);
            PointsOf(r.shape) == [] && r.x == across.start && r.width == across.length && r.y == down.start && r.height == down.length
  {
    hide BoxExtent, PointExtent, Scaled;
    assert PointsOf(MapShape(item.shape, mx, my)) == [];
  }

  /** And to a mark with points. */
  lemma MappedShape(item: Annotation, mx: real -> real, my: real -> real, sx: real, sy: real, clip: bool)
    requires PointsOf(item.shape) != []
    ensures var r := MapAnnotation(item, mx, my, sx, sy, clip);
            var points := PointsOf(r.shape);
            && points != [] && (forall i :: 0 <= i < |points| ==> InRange(points[i]))
            && r.x == PointExtent(Xs(points)).start && r.width == PointExtent(Xs(points)).length
            && r.y == PointExtent(Ys(points)).start && r.height == PointExtent(Ys(points)).length
  {
    hide BoxExtent, PointExtent;
  }

  lemma MapFits(item: Annotation, mx: real -> real, my: real -> real, sx: real, sy: real, clip: bool)
    requires PointsOf(item.shape) == [] && !clip ==> 0.0 <= mx(item.x as real) <= 10_000.0 && 0.0 <= my(item.y as real) <= 10_000.0
    ensures Fits(MapAnnotation(item, mx, my, sx, sy, clip))
  {
    hide PointExtent, BoxExtent, MapAnnotation, Scaled;
    if PointsOf(item.shape) == [] {
      MappedBox(item, mx, my, sx, sy, clip);
      BoxExtentFits(mx(item.x as real), Scaled(item.width, sx), clip);
      BoxExtentFits(my(item.y as real), Scaled(item.height, sy), clip);
    } else {
      MappedShape(item, mx, my, sx, sy, clip);
      var points := PointsOf(MapAnnotation(item, mx, my, sx, sy, clip).shape);
      PointExtentFits(Xs(points));
      PointExtentFits(Ys(points));
    }
  }

  lemma BoxExtentFits(origin: real, length: real, clip: bool)
    requires !clip ==> 0.0 <= origin <= 10_000.0
    ensures FitsAxis(BoxExtent(origin, length, clip).start, BoxExtent(origin, length, clip).length)
  {
    if !clip {
      RoundInRange(origin);
    }
  }

  /** Whatever is shown fits the image. */
  lemma {:induction false} ShownFits(items: seq<Annotation>, ax: Axis, ay: Axis)
    requires ax.zoom != 0.0 && ay.zoom != 0.0
    ensures forall item :: item in Shown(items, ax, ay) ==> Fits(item)
  {
    hide Visible, ShowOne, Fits;
    if items != [] {
      ShownFits(items[..|items| - 1], ax, ay);
      ShowOneFits(items[|items| - 1], ax, ay);
    }
  }

  lemma ShowOneFits(item: Annotation, ax: Axis, ay: Axis)
    ensures Fits(ShowOne(item, ax, ay))
  {
    MapFits(item, v => Into(ax, v), v => Into(ay, v), ax.zoom, ay.zoom, true);
  }

  lemma RestoreOneFits(item: Annotation, ax: Axis, ay: Axis)
    requires InFrame(ax) && InFrame(ay) && 0 <= item.x <= FULL && 0 <= item.y <= FULL
    ensures Fits(RestoreOne(item, ax, ay))
  {
    BackInRange(ax, item.x);
    BackInRange(ay, item.y);
    MapFits(item, v => Back(ax, v), v => Back(ay, v), ax.shrink, ay.shrink, false);
  }

  lemma {:induction false} MergeFits(original: seq<Annotation>, visible: map<string, Annotation>, displayed: map<string, Annotation>, ax: Axis, ay: Axis)
    requires InFrame(ax) && InFrame(ay) && (forall item :: item in original ==> Fits(item))
    requires forall id :: id in displayed ==> Fits(displayed[id])
    ensures forall item :: item in Merge(original, visible, displayed, ax, ay) ==> Fits(item)
  {
    hide RestoreOne, InFrame;
    if original != [] {
      var last := original[|original| - 1];
      MergeFits(original[..|original| - 1], visible, displayed, ax, ay);
      if last.id in displayed {
        RestoreOneFits(displayed[last.id], ax, ay);
      }
    }
  }

  lemma {:induction false} AdditionsFit(displayed: seq<Annotation>, known: set<string>, ax: Axis, ay: Axis)
    requires InFrame(ax) && InFrame(ay) && forall item :: item in displayed ==> Fits(item)
    ensures forall item :: item in Additions(displayed, known, ax, ay) ==> Fits(item)
  {
    hide RestoreOne, InFrame;
    if displayed != [] {
      AdditionsFit(displayed[..|displayed| - 1], known, ax, ay);
      assert Fits(displayed[|displayed| - 1]);
      RestoreOneFits(displayed[|displayed| - 1], ax, ay);
    }
  }

  /** Marks that fit stay marks that fit, through any edit and either direction of the lens. */
  lemma LensKeepsMarksInTheImage(original: seq<Annotation>, displayed: seq<Annotation>, crop: Crop, width: nat, height: nat)
    requires 0 < crop.width && 0 < crop.height && crop.x + crop.width <= width && crop.y + crop.height <= height
    requires (forall item :: item in original ==> Fits(item)) && (forall item :: item in displayed ==> Fits(item))
    ensures forall item :: item in ProjectGalleryAnnotations(original, Some(crop), width, height) ==> Fits(item)
    ensures forall item :: item in RestoreGalleryAnnotations(original, displayed, Some(crop), width, height) ==> Fits(item)
  {
    hide Shown, Merge, Additions, InFrame, Fits;
    var ax, ay := AcrossOf(crop, width), DownOf(crop, height);
    InsideIsInFrame(crop.x, crop.width, width);
    InsideIsInFrame(crop.y, crop.height, height);
    ShownFits(original, ax, ay);
    ByIdKeys(displayed);
    MergeFits(original, ById(Shown(original, ax, ay)), ById(displayed), ax, ay);
    AdditionsFit(displayed, Ids(original), ax, ay);
  }

  // ---- edits come back ----------------------------------------------------------------------------------

  /** An edited point, merged back and shown again, is within the rounding bound of where it was drawn. */
  lemma EditedPointsComeBack(item: Annotation, crop: Crop, width: nat, height: nat, k: nat)
    requires 0 < crop.width && 0 < crop.height && crop.x + crop.width <= width && crop.y + crop.height <= height
    requires k < |PointsOf(item.shape)| && InRange(PointsOf(item.shape)[k])
    ensures var ax, ay := AcrossOf(crop, width), DownOf(crop, height);
            var again := PointsOf(ShowOne(RestoreOne(item, ax, ay), ax, ay).shape);
            && |again| == |PointsOf(item.shape)|
            && Abs((again[k].x - PointsOf(item.shape)[k].x) as real) <= (width as real / crop.width as real) / 2.0 + 0.5
            && Abs((again[k].y - PointsOf(item.shape)[k].y) as real) <= (height as real / crop.height as real) / 2.0 + 0.5
  {
    var ax, ay, p := AcrossOf(crop, width), DownOf(crop, height), PointsOf(item.shape)[k];
    InsideIsInFrame(crop.x, crop.width, width);
    InsideIsInFrame(crop.y, crop.height, height);
    ThereAndBack(ax, p.x);
    ThereAndBack(ay, p.y);
    hide InFrame, Clamp, Into, Back;
    MappedPoints(item, v => Back(ax, v), v => Back(ay, v), ax.shrink, ay.shrink, false, k);
    MappedPoints(RestoreOne(item, ax, ay), v => Into(ax, v), v => Into(ay, v), ax.zoom, ay.zoom, true, k);
  }

  lemma MappedPoints(item: Annotation, mx: real -> real, my: real -> real, sx: real, sy: real, clip: bool, k: nat)
    requires k < |PointsOf(item.shape)|
    ensures var r := PointsOf(MapAnnotation(item, mx, my, sx, sy, clip).shape);
            |r| == |PointsOf(item.shape)| && r[k] == MapPoint(PointsOf(item.shape)[k], mx, my)
  {
  }

  lemma ZoomAtLeastOne(a: Axis)
    requires InFrame(a)
    ensures a.zoom >= 1.0 && a.shrink <= 1.0
  {
    assert a.shrink <= 1.0;
    assert (a.zoom - 1.0) * a.shrink == 1.0 - a.shrink >= 0.0;
  }

  lemma BackIsLinear(a: Axis, x: int, w: int)
    ensures Back(a, x as real) + Scaled(w, a.shrink) == Back(a, (x + w) as real)
    ensures Into(a, x as real) + Scaled(w, a.zoom) == Into(a, (x + w) as real)
  {
    assert (x + w) as real == x as real + w as real;
    assert (x as real + w as real) * a.shrink == x as real * a.shrink + w as real * a.shrink;
    assert (x as real + w as real - a.start) * a.zoom == (x as real - a.start) * a.zoom + w as real * a.zoom;
  }

  lemma RoundApart(u: real, v: real)
    requires u + 1.0 <= v
    ensures Round(u) + 1 <= Round(v) && (Clamp(u) < Clamp(v) || Clamp(u) == Clamp(v) == 0 || Clamp(u) == Clamp(v) == FULL)
  {
  }

  lemma ShownEdges(a: Axis, o: int, r: int)
    requires InFrame(a) && o < r
    ensures var d := BoxExtent(Into(a, o as real), Scaled(r - o, a.zoom), true);
            var left, right := Clamp(Into(a, o as real)), Clamp(Into(a, r as real));
            && d.start == Min(left, FULL - 1)
            && d.start + d.length == Max(right, 1)
  {
    BackIsLinear(a, o, r - o);
    ZoomAtLeastOne(a);
    assert Into(a, o as real) + 1.0 <= Into(a, r as real) by {
      assert ((r - o) as real - 1.0) * a.zoom >= 0.0;
    }
    hide Into, InFrame;
    RoundApart(Into(a, o as real), Into(a, r as real));
  }

  // ---- the edges of a box ---------------------------------------------------------------------------

  /** A box drawn in the view, as it is stored in the original. */
  function Stored(a: Axis, x: int, w: int): Extent {
    BoxExtent(Back(a, x as real), Scaled(w, a.shrink), false)
  }

  /** And as the view shows it again. */
  function ShownAgain(a: Axis, x: int, w: int): Extent {
    var o := Stored(a, x, w);
    BoxExtent(Into(a, o.start as real), Scaled(o.length, a.zoom), true)
  }

  /** How far a point moves at most, there and back. */
  function Slack(a: Axis): real {
    a.zoom / 2.0 + 0.5
  }

  predicate Near(d: Extent, x: int, w: int, e: real) {
    Abs((d.start - x) as real) <= e && Abs((d.start + d.length - (x + w)) as real) <= e
  }

  /** The original coordinate a shown one rounds to. */
  function RoundsTo(a: Axis, x: int): int {
    Round(Back(a, x as real))
  }

  /**
    When a box keeps its edges: they round to different original coordinates, or the unit box stored
    instead still ends, or at the far edge of the image starts, near enough.
   */
  predicate KeepsEdges(a: Axis, x: int, w: int) {
    var at, end := RoundsTo(a, x), RoundsTo(a, x + w);
    || at < end
    || (at < FULL && Clamp(Into(a, (at + 1) as real)) as real <= (x + w) as real + Slack(a))
    || (at == FULL && x as real - Slack(a) <= Clamp(Into(a, (FULL - 1) as real)) as real)
  }

  lemma ClampBounds(v: real)
    ensures 0 <= Clamp(v) <= FULL
  {
  }

  lemma SameRound(a: Axis, d: int)
    requires InFrame(a) && 0 <= d <= FULL
    ensures Clamp(Back(a, d as real)) == RoundsTo(a, d) && 0 <= RoundsTo(a, d) <= FULL
  {
    BackInRange(a, d);
    RoundInRange(Back(a, d as real));
  }

  lemma RoundMonotone(u: real, v: real)
    requires u <= v
    ensures Round(u) <= Round(v)
  {
  }

  /** The right edge never rounds below the left one. */
  lemma EdgesInOrder(a: Axis, x: int, w: int)
    requires InFrame(a) && w >= 0
    ensures RoundsTo(a, x) <= RoundsTo(a, x + w)
  {
    BackIsLinear(a, x, w);
    assert w as real * a.shrink >= 0.0;
    RoundMonotone(Back(a, x as real), Back(a, (x + w) as real));
  }

  lemma ClampMonotone(a: Axis, p: int, q: int)
    requires InFrame(a) && p <= q
    ensures Clamp(Into(a, p as real)) <= Clamp(Into(a, q as real))
  {
    ZoomAtLeastOne(a);
    assert (q as real - p as real) * a.zoom >= 0.0;
    RoundMonotone(Into(a, p as real), Into(a, q as real));
  }

  /** Any other box than one whose edges round apart is stored one unit wide, where both edges round to. */
  lemma StoredEdges(a: Axis, x: int, w: int)
    requires InFrame(a) && FitsAxis(x, w)
    ensures var at, end := RoundsTo(a, x), RoundsTo(a, x + w);
            && 0 <= at <= end <= FULL
            && Stored(a, x, w) == if at < end then Extent(at, end - at) else Extent(Min(at, FULL - 1), 1)
  {
    EdgesInOrder(a, x, w);
    SameRound(a, x);
    SameRound(a, x + w);
    hide InFrame;
    BackIsLinear(a, x, w);
  }

  lemma ShownAgainEdges(a: Axis, x: int, w: int)
    requires InFrame(a) && FitsAxis(x, w)
    ensures var o, d := Stored(a, x, w), ShownAgain(a, x, w);
            && d.start == Min(Clamp(Into(a, o.start as real)), FULL - 1)
            && d.start + d.length == Max(Clamp(Into(a, (o.start + o.length) as real)), 1)
  {
    hide InFrame, Into, BoxExtent, Scaled, Clamp, RoundsTo, Stored;
    StoredEdges(a, x, w);
    var o := Stored(a, x, w);
    ShownEdges(a, o.start, o.start + o.length);
  }

  /** A coordinate that rounds, there and back. */
  lemma Returns(a: Axis, d: int)
    requires InFrame(a) && 0 <= d <= FULL
    ensures Abs(Clamp(Into(a, RoundsTo(a, d) as real)) as real - d as real) <= Slack(a)
  {
    SameRound(a, d);
    ThereAndBack(a, d);
  }

  /** The shown edges are near exactly when the unclipped ones are on the side they can miss. */
  lemma LeftNear(left: int, x: int, e: real)
    requires 0 <= left <= FULL && x <= FULL - 1 && left as real <= x as real + e && e >= 0.0
    ensures Abs((Min(left, FULL - 1) - x) as real) <= e <==> x as real - e <= left as real
  {
  }

  lemma RightNear(right: int, y: int, e: real)
    requires 0 <= right <= FULL && y >= 1 && y as real - e <= right as real && e >= 0.0
    ensures Abs((Max(right, 1) - y) as real) <= e <==> right as real <= y as real + e
  {
  }

  lemma WithinMeans(v: int, d: int, e: real)
    requires Abs(v as real - d as real) <= e
    ensures d as real - e <= v as real <= d as real + e && e >= 0.0
  {
  }

  /**
    The edges of a box drawn in the view, stored and shown again, are both within the bound of a
    point exactly when the box keeps its edges.
   */
  lemma BoxEdgesComeBack(a: Axis, x: int, w: int)
    requires InFrame(a) && FitsAxis(x, w)
    ensures Near(ShownAgain(a, x, w), x, w, Slack(a)) <==> KeepsEdges(a, x, w)
  {
    hide InFrame, Into, Clamp, RoundsTo, Stored, ShownAgain, Slack, Abs;
    var at, end, e, o := RoundsTo(a, x), RoundsTo(a, x + w), Slack(a), Stored(a, x, w);
    StoredEdges(a, x, w);
    ShownAgainEdges(a, x, w);
    Returns(a, x);
    Returns(a, x + w);
    var left, right := Clamp(Into(a, o.start as real)), Clamp(Into(a, (o.start + o.length) as real));
    ClampBounds(Into(a, o.start as real));
    ClampBounds(Into(a, (o.start + o.length) as real));
    WithinMeans(Clamp(Into(a, at as real)), x, e);
    WithinMeans(Clamp(Into(a, end as real)), x + w, e);
    ClampMonotone(a, o.start, at);
    ClampMonotone(a, end, o.start + o.length);
    LeftNear(left, x, e);
    RightNear(right, x + w, e);
  }

  /** A stored edge at most one and a half from where it was drawn. */
  lemma FarthestReturn(a: Axis, o: int, d: int)
    requires InFrame(a) && 0 <= d <= FULL && Abs((o - RoundsTo(a, d)) as real) <= 1.0
    ensures Abs(Clamp(Into(a, o as real)) as real - d as real) <= 3.0 * a.zoom / 2.0 + 0.5
  {
    var v := Back(a, d as real);
    RoundIsNear(v);
    assert Abs(o as real - v) <= 1.5;
    Stretch(a, o, d, 1.5);
    ClampIsNear(Into(a, o as real), d, 1.5 * a.zoom);
  }

  /** Whatever box is drawn, both its edges return within one and a half times the zoom and a half. */
  lemma EveryBoxComesBack(a: Axis, x: int, w: int)
    requires InFrame(a) && FitsAxis(x, w)
    ensures Near(ShownAgain(a, x, w), x, w, 3.0 * a.zoom / 2.0 + 0.5)
  {
    hide InFrame, Into, Clamp, RoundsTo, Stored, ShownAgain;
    var o, e := Stored(a, x, w), 3.0 * a.zoom / 2.0 + 0.5;
    StoredEdges(a, x, w);
    ShownAgainEdges(a, x, w);
    var left, right := Clamp(Into(a, o.start as real)), Clamp(Into(a, (o.start + o.length) as real));
    FarthestReturn(a, o.start, x);
    FarthestReturn(a, o.start + o.length, x + w);
    ClampBounds(Into(a, o.start as real));
    ClampBounds(Into(a, (o.start + o.length) as real));
    WithinMeans(left, x, e);
    WithinMeans(right, x + w, e);
    LeftNear(left, x, e);
    RightNear(right, x + w, e);
  }

  /** What an edited rectangle or strike becomes, axis by axis. */
  lemma EditedBox(item: Annotation, ax: Axis, ay: Axis)
    requires PointsOf(item.shape) == []
    ensures var again := ShowOne(RestoreOne(item, ax, ay), ax, ay);
            && Extent(again.x, again.width) == ShownAgain(ax, item.x, item.width)
            && Extent(again.y, again.height) == ShownAgain(ay, item.y, item.height)
  {
    hide BoxExtent, Scaled, Into, Back, MapAnnotation;
    MappedBox(item, v => Back(ax, v), v => Back(ay, v), ax.shrink, ay.shrink, false);
    MappedBox(RestoreOne(item, ax, ay), v => Into(ax, v), v => Into(ay, v), ax.zoom, ay.zoom, true);
  }

  /**
    A rectangle or strike drawn in the view, merged back and shown again: on each axis both edges are
    within the bound of a point exactly when the box keeps its edges there, and always within three
    times the zoom's part of it.
   */
  lemma EditedBoxesComeBack(item: Annotation, crop: Crop, width: nat, height: nat)
    requires 0 < crop.width && 0 < crop.height && crop.x + crop.width <= width && crop.y + crop.height <= height
    requires Fits(item) && PointsOf(item.shape) == []
    ensures var ax, ay := AcrossOf(crop, width), DownOf(crop, height);
            var again := ShowOne(RestoreOne(item, ax, ay), ax, ay);
            var across, down := Extent(again.x, again.width), Extent(again.y, again.height);
            && (Near(across, item.x, item.width, Slack(ax)) <==> KeepsEdges(ax, item.x, item.width))
            && (Near(down, item.y, item.height, Slack(ay)) <==> KeepsEdges(ay, item.y, item.height))
            && Near(across, item.x, item.width, 3.0 * ax.zoom / 2.0 + 0.5)
            && Near(down, item.y, item.height, 3.0 * ay.zoom / 2.0 + 0.5)
  {
    var ax, ay := AcrossOf(crop, width), DownOf(crop, height);
    InsideIsInFrame(crop.x, crop.width, width);
    InsideIsInFrame(crop.y, crop.height, height);
    hide InFrame, ShownAgain, ShowOne, RestoreOne, KeepsEdges, Near, Slack;
    EditedBox(item, ax, ay);
    BoxEdgesComeBack(ax, item.x, item.width);
    BoxEdgesComeBack(ay, item.y, item.height);
    EveryBoxComesBack(ax, item.x, item.width);
    EveryBoxComesBack(ay, item.y, item.height);
  }

  /** A box that loses an edge: in a crop of the last pixel of a thousand, drawn at 9900, it is shown at 9000. */
  lemma ThinBoxMovesFurther()
    ensures var a := AxisOf(999, 1, 1000);
            InFrame(a) && FitsAxis(9900, 50) && ShownAgain(a, 9900, 50) == Extent(9000, 1000) && !Near(ShownAgain(a, 9900, 50), 9900, 50, Slack(a))
  {
    InsideIsInFrame(999, 1, 1000);
  }
}
