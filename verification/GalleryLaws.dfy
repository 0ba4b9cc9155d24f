/**
  The crop lens told without its scales: in pixels of the original image showing and restoring are
  the identity up to rounding, a mark is shown exactly when its box overlaps the crop, and merging
  back is a statement about ids and about which mark each id carries.
 */
module GalleryLaws {
  import opened Options
  import opened GalleryCrop

  // ---- pixels -------------------------------------------------------------------------------------

  /** The pixel position of a coordinate of the original, and of one of the view. */
  function PixelOf(v: real, whole: nat): real {
    v * whole as real / 10_000.0
  }

  function PixelInView(d: real, offset: nat, length: nat): real {
    offset as real + PixelOf(d, length)
  }

  lemma AxisScales(offset: nat, length: nat, whole: nat)
    requires length > 0 && whole > 0
    ensures var a := AxisOf(offset, length, whole);
            a.start * whole as real == offset as real * 10_000.0 && a.zoom * length as real == whole as real
            && a.shrink * whole as real == length as real && a.zoom > 0.0 && a.shrink > 0.0 && a.zoom * a.shrink == 1.0
  {
    Quotient(offset as real * 10_000.0, whole as real);
    Quotient(whole as real, length as real);
    Quotient(length as real, whole as real);
    Reciprocal(whole as real, length as real);
  }

  /** Before rounding a coordinate and its image in the view are the same pixel, both ways. */
  lemma LensKeepsPixels(offset: nat, length: nat, whole: nat, v: real)
    requires length > 0 && whole > 0
    ensures var a := AxisOf(offset, length, whole);
            && PixelInView(Into(a, v), offset, length) == PixelOf(v, whole)
            && PixelOf(Back(a, v), whole) == PixelInView(v, offset, length)
  {
    var a, l, w := AxisOf(offset, length, whole), length as real, whole as real;
    AxisScales(offset, length, whole);
    assert (v - a.start) * a.zoom * l == (v - a.start) * (a.zoom * l) == v * w - a.start * w;
    assert (a.start + v * a.shrink) * w == a.start * w + v * (a.shrink * w);
  }

  /** Half a unit of an image `n` pixels long, in pixels. */
  lemma HalfUnit(x: real, y: real, n: nat)
    requires Abs(x - y) <= 0.5
    ensures Abs(PixelOf(x, n) - PixelOf(y, n)) <= n as real / 20_000.0
  {
    var t, m := x - y, n as real;
    var p, q, d := x * m, y * m, t * m;
    assert p - q == d;
    assert -(m / 2.0) <= d <= m / 2.0 by { HalfProduct(t, m); }
    Tenthousandths(p, q, m / 2.0);
  }

  lemma HalfProduct(t: real, m: real)
    requires -0.5 <= t <= 0.5 && m >= 0.0
    ensures -(m / 2.0) <= t * m <= m / 2.0
  {
    assert (0.5 - t) * m >= 0.0 && (0.5 + t) * m >= 0.0;
  }

  lemma Tenthousandths(p: real, q: real, e: real)
    requires -e <= p - q <= e
    ensures Abs(p / 10_000.0 - q / 10_000.0) <= e / 10_000.0
  {
  }

  /** A coordinate of the original lies left of the crop, in it or right of it as its image lies below 0, between or above 10000. */
  lemma ViewSides(offset: nat, length: nat, whole: nat, v: real)
    requires length > 0 && whole > 0
    ensures var into, pixel := Into(AxisOf(offset, length, whole), v), PixelOf(v, whole);
            && (into <= 0.0 <==> pixel <= offset as real) && (into >= 0.0 <==> pixel >= offset as real)
            && (into <= 10_000.0 <==> pixel <= (offset + length) as real) && (into >= 10_000.0 <==> pixel >= (offset + length) as real)
  {
    var into, l := Into(AxisOf(offset, length, whole), v), length as real;
    LensKeepsPixels(offset, length, whole, v);
    Signs(into, l);
    Signs(into - 10_000.0, l);
    assert (into - 10_000.0) * l == into * l - 10_000.0 * l;
  }

  lemma Signs(x: real, l: real)
    requires l > 0.0
    ensures (x <= 0.0 <==> x * l <= 0.0) && (x >= 0.0 <==> x * l >= 0.0)
  {
  }

  lemma ClampSides(v: real)
    ensures v <= 0.0 ==> Clamp(v) == 0
    ensures v >= 10_000.0 ==> Clamp(v) == FULL
    ensures 0.0 <= v <= 10_000.0 ==> Abs(Clamp(v) as real - v) <= 0.5
  {
  }

  /**
    Where a point of the original is shown: within half a unit of the view of its own pixel when that
    lies in the crop, and otherwise on the edge of the view it lies beyond.
   */
  lemma ShownAtItsPixel(offset: nat, length: nat, whole: nat, v: int)
    requires length > 0 && whole > 0
    ensures var shown, pixel := Clamp(Into(AxisOf(offset, length, whole), v as real)), PixelOf(v as real, whole);
            && (offset as real <= pixel <= (offset + length) as real ==>
                  Abs(PixelInView(shown as real, offset, length) - pixel) <= length as real / 20_000.0)
            && (pixel <= offset as real ==> shown == 0)
            && (pixel >= (offset + length) as real ==> shown == FULL)
  {
    hide PixelOf, Into;
    var into := Into(AxisOf(offset, length, whole), v as real);
    ViewSides(offset, length, whole, v as real);
    LensKeepsPixels(offset, length, whole, v as real);
    hide AxisOf;
    ClampSides(into);
    if 0.0 <= into <= 10_000.0 {
      HalfUnit(Clamp(into) as real, into, length);
    }
  }

  /** A coordinate drawn in the view is stored within half a unit of the original of its own pixel. */
  lemma StoredAtItsPixel(offset: nat, length: nat, whole: nat, d: int)
    requires 0 < length && offset + length <= whole && 0 <= d <= FULL
    ensures var stored := Clamp(Back(AxisOf(offset, length, whole), d as real));
            Abs(PixelOf(stored as real, whole) - PixelInView(d as real, offset, length)) <= whole as real / 20_000.0
  {
    var a := AxisOf(offset, length, whole);
    InsideIsInFrame(offset, length, whole);
    BackInRange(a, d);
    LensKeepsPixels(offset, length, whole, d as real);
    hide InFrame, AxisOf, Back, PixelOf, Clamp, Abs;
    var back := Back(a, d as real);
    ClampSides(back);
    HalfUnit(Clamp(back) as real, back, whole);
  }

  /** One axis of a box overlaps the crop, in whole numbers. */
  predicate OverlapsCrop(at: int, size: int, offset: nat, length: nat, whole: nat) {
    at * whole < (offset + length) * 10_000 && (at + size) * whole > offset * 10_000
  }

  lemma OverlapInPixels(at: int, size: int, offset: nat, length: nat, whole: nat)
    requires length > 0 && whole > 0
    ensures var a := AxisOf(offset, length, whole);
            a.zoom != 0.0 && (Overlaps(at, size, a) <==> OverlapsCrop(at, size, offset, length, whole))
  {
    var a, w := AxisOf(offset, length, whole), whole as real;
    AxisScales(offset, length, whole);
    assert 10_000.0 / a.zoom == 10_000.0 * a.shrink by { Cancel(10_000.0 / a.zoom, 10_000.0 * a.shrink, a.zoom); }
    var end := a.start + 10_000.0 * a.shrink;
    assert end * w == (offset as real + length as real) * 10_000.0 by { assert end * w == a.start * w + 10_000.0 * (a.shrink * w); }
    Below(at as real, end, w);
    Below(a.start, (at + size) as real, w);
    WholeProduct(at, whole);
    WholeProduct(at + size, whole);
    WholeProduct(offset + length, 10_000);
    WholeProduct(offset, 10_000);
  }

  lemma Below(x: real, y: real, w: real)
    requires w > 0.0
    ensures x < y <==> x * w < y * w
  {
    Signs(y - x, w);
    Signs(x - y, w);
    assert (y - x) * w == y * w - x * w && (x - y) * w == x * w - y * w;
  }

  lemma WholeProduct(a: int, b: int)
    ensures a as real * b as real == (a * b) as real
  {
  }

  /** A mark is shown exactly when its box overlaps the crop on both axes. */
  lemma VisibleExactly(item: Annotation, crop: Crop, width: nat, height: nat)
    requires crop.width > 0 && crop.height > 0 && width > 0 && height > 0
    ensures Visible(item, AcrossOf(crop, width), DownOf(crop, height)) <==>
            OverlapsCrop(item.x, item.width, crop.x, crop.width, width) && OverlapsCrop(item.y, item.height, crop.y, crop.height, height)
  {
    OverlapInPixels(item.x, item.width, crop.x, crop.width, width);
    OverlapInPixels(item.y, item.height, crop.y, crop.height, height);
  }

  // ---- marks --------------------------------------------------------------------------------------

  /** The two differ in where they are, not in what they are. */
  predicate SameButPlaced(a: Annotation, b: Annotation) {
    && a.id == b.id && a.rest == b.rest && |PointsOf(a.shape)| == |PointsOf(b.shape)|
    && (a.shape.NoShape? <==> b.shape.NoShape?) && (a.shape.Rect? <==> b.shape.Rect?) && (a.shape.Strike? <==> b.shape.Strike?)
    && (a.shape.Insertion? <==> b.shape.Insertion?)
    && (a.shape.Freehand? <==> b.shape.Freehand?) && (a.shape.Freehand? && b.shape.Freehand? ==> a.shape.closed == b.shape.closed)
    && (a.shape.Arrow? <==> b.shape.Arrow?)
    && (a.shape.Arrow? && b.shape.Arrow? ==> a.shape.startHead == b.shape.startHead && a.shape.endHead == b.shape.endHead)
  }

  /** The interval is the least one, at least one wide, that holds all of `vs`. */
  ghost predicate Hugs(d: Extent, vs: seq<int>) {
    && d.length >= 1 && (forall i :: 0 <= i < |vs| ==> d.start <= vs[i] <= d.start + d.length)
    && (d.length > 1 ==> d.start in vs && d.start + d.length in vs)
  }

  lemma PointsHugged(vs: seq<int>)
    requires vs != [] && forall i :: 0 <= i < |vs| ==> 0 <= vs[i] <= FULL
    ensures Hugs(PointExtent(vs), vs)
  {
    var low, high := Lowest(vs), Highest(vs);
    if low == FULL {
      assert forall i :: 0 <= i < |vs| ==> vs[i] == FULL;
    }
  }

  /** A mapped mark is the same mark placed elsewhere, and one with points has them in its box. */
  lemma MappedMark(item: Annotation, mx: real -> real, my: real -> real, sx: real, sy: real, clip: bool)
    ensures var r := MapAnnotation(item, mx, my, sx, sy, clip);
            && SameButPlaced(item, r)
            && (PointsOf(r.shape) != [] ==>
                  Hugs(Extent(r.x, r.width), Xs(PointsOf(r.shape))) && Hugs(Extent(r.y, r.height), Ys(PointsOf(r.shape))))
  {
    hide PointExtent, BoxExtent, Hugs, Clamp;
    var r := MapAnnotation(item, mx, my, sx, sy, clip);
    if PointsOf(item.shape) != [] {
      MappedShape(item, mx, my, sx, sy, clip);
      PointsHugged(Xs(PointsOf(r.shape)));
      PointsHugged(Ys(PointsOf(r.shape)));
    }
  }

  /** Showing and restoring change where a mark is and nothing else, and keep its box around its points. */
  lemma LensMovesOnly(item: Annotation, ax: Axis, ay: Axis)
    ensures SameButPlaced(item, ShowOne(item, ax, ay)) && SameButPlaced(item, RestoreOne(item, ax, ay))
    ensures var r := ShowOne(item, ax, ay);
            PointsOf(r.shape) != [] ==> Hugs(Extent(r.x, r.width), Xs(PointsOf(r.shape))) && Hugs(Extent(r.y, r.height), Ys(PointsOf(r.shape)))
    ensures var r := RestoreOne(item, ax, ay);
            PointsOf(r.shape) != [] ==> Hugs(Extent(r.x, r.width), Xs(PointsOf(r.shape))) && Hugs(Extent(r.y, r.height), Ys(PointsOf(r.shape)))
  {
    hide MapAnnotation, Hugs, SameButPlaced;
    MappedMark(item, v => Into(ax, v), v => Into(ay, v), ax.zoom, ay.zoom, true);
    MappedMark(item, v => Back(ax, v), v => Back(ay, v), ax.shrink, ay.shrink, false);
  }

  // ---- which marks, in which order ----------------------------------------------------------------

  /** `place` lists the visible items in order, and `shown` is what each of them is shown as. */
  ghost predicate Picks(items: seq<Annotation>, shown: seq<Annotation>, place: seq<nat>, ax: Axis, ay: Axis)
    requires ax.zoom != 0.0 && ay.zoom != 0.0
  {
    && |place| == |shown|
    && (forall j, k :: 0 <= j < k < |place| ==> place[j] < place[k])
    && (forall j :: 0 <= j < |place| ==> place[j] < |items| && shown[j] == ShowOne(items[place[j]], ax, ay))
    && (forall i :: 0 <= i < |items| ==> (Visible(items[i], ax, ay) <==> i in place))
  }

  lemma PicksMore(items: seq<Annotation>, shown: seq<Annotation>, place: seq<nat>, ax: Axis, ay: Axis, item: Annotation)
    requires ax.zoom != 0.0 && ay.zoom != 0.0 && Picks(items, shown, place, ax, ay)
    ensures if Visible(item, ax, ay) then Picks(items + [item], shown + [ShowOne(item, ax, ay)], place + [|items|], ax, ay)
            else Picks(items + [item], shown, place, ax, ay)
  {
    hide ShowOne, Visible;
  }

  /** The marks shown are the visible ones, each once, in their own order. */
  lemma {:induction false} ShownInOrder(items: seq<Annotation>, ax: Axis, ay: Axis) returns (place: seq<nat>)
    requires ax.zoom != 0.0 && ay.zoom != 0.0
    ensures Picks(items, Shown(items, ax, ay), place, ax, ay)
  {
    hide ShowOne, Visible, Shown;
    place := [];
    if items == [] {
      ShownMore(items, ax, ay);
    } else {
      hide Picks;
      var n := |items| - 1;
      var front, last := items[..n], items[n];
      var before := ShownInOrder(front, ax, ay);
      place := if Visible(last, ax, ay) then before + [n] else before;
      PicksMore(front, Shown(front, ax, ay), before, ax, ay, last);
      assert front + [last] == items;
      ShownMore(items, ax, ay);
    }
  }

  lemma ShownMore(items: seq<Annotation>, ax: Axis, ay: Axis)
    requires ax.zoom != 0.0 && ay.zoom != 0.0
    ensures items == [] ==> Shown(items, ax, ay) == []
    ensures items != [] ==>
              var before, item := Shown(items[..|items| - 1], ax, ay), items[|items| - 1];
              Shown(items, ax, ay) == if Visible(item, ax, ay) then before + [ShowOne(item, ax, ay)] else before
  {
    hide ShowOne, Visible;
  }

  function IdList(items: seq<Annotation>): (r: seq<string>)
    ensures |r| == |items| && forall i :: 0 <= i < |r| ==> r[i] == items[i].id
  {
    seq(|items|, i requires 0 <= i < |items| => items[i].id)
  }

  function Without(ids: seq<string>, gone: set<string>): seq<string> {
    if ids == [] then []
    else
      var before, id := Without(ids[..|ids| - 1], gone), ids[|ids| - 1];
      if id in gone then before else before + [id]
  }

  lemma IdListMore(items: seq<Annotation>, more: seq<Annotation>)
    ensures IdList(items + more) == IdList(items) + IdList(more)
  {
  }

  lemma OneMoreId(items: seq<Annotation>, item: Annotation)
    ensures IdList(items + [item]) == IdList(items) + [item.id]
  {
    IdListMore(items, [item]);
  }

  lemma WithoutMore(ids: seq<string>, id: string, gone: set<string>)
    ensures Without(ids + [id], gone) == Without(ids, gone) + if id in gone then [] else [id]
  {
    assert (ids + [id])[..|ids|] == ids;
    assert Without(ids, gone) + [] == Without(ids, gone);
  }

  lemma {:induction false} MergeOrder(original: seq<Annotation>, visible: map<string, Annotation>, displayed: map<string, Annotation>, ax: Axis, ay: Axis)
    requires forall id :: id in displayed ==> displayed[id].id == id
    ensures IdList(Merge(original, visible, displayed, ax, ay)) == Without(IdList(original), visible.Keys - displayed.Keys)
  {
    hide RestoreOne, Without, IdList;
    var gone := visible.Keys - displayed.Keys;
    if original == [] {
      assert Without(IdList(original), gone) == [] by { assert IdList(original) == []; EmptyWithout(gone); }
      assert IdList([]) == [];
    } else {
      var front, last := original[..|original| - 1], original[|original| - 1];
      MergeOrder(front, visible, displayed, ax, ay);
      var one := MergeOne(last, visible, displayed, ax, ay);
      IdListMore(front, [last]);
      IdListMore(Merge(front, visible, displayed, ax, ay), one);
      assert original == front + [last] && IdList([last]) == [last.id];
      WithoutMore(IdList(front), last.id, gone);
      MergedId(last, visible, displayed, ax, ay);
    }
  }

  lemma EmptyWithout(gone: set<string>)
    ensures Without([], gone) == []
  {
  }

  lemma MergedId(item: Annotation, visible: map<string, Annotation>, displayed: map<string, Annotation>, ax: Axis, ay: Axis)
    requires forall id :: id in displayed ==> displayed[id].id == id
    ensures IdList(MergeOne(item, visible, displayed, ax, ay)) == if item.id in visible && item.id !in displayed then [] else [item.id]
  {
    hide RestoreOne;
    if item.id in displayed {
      ShowKeepsId(displayed[item.id], ax, ay);
    }
  }

  lemma {:induction false} AdditionOrder(displayed: seq<Annotation>, known: set<string>, ax: Axis, ay: Axis)
    ensures IdList(Additions(displayed, known, ax, ay)) == Without(IdList(displayed), known)
  {
    hide RestoreOne, Without, IdList;
    if displayed == [] {
      EmptyWithout(known);
      assert IdList([]) == [];
    } else {
      var front, last := displayed[..|displayed| - 1], displayed[|displayed| - 1];
      var restored := RestoreOne(last, ax, ay);
      AdditionOrder(front, known, ax, ay);
      assert IdList(displayed) == IdList(front) + [last.id] by { OneMoreId(front, last); assert front + [last] == displayed; }
      assert IdList(Additions(front, known, ax, ay) + [restored]) == IdList(Additions(front, known, ax, ay)) + [last.id] by {
        ShowKeepsId(last, ax, ay);
        OneMoreId(Additions(front, known, ax, ay), restored);
      }
      WithoutMore(IdList(front), last.id, known);
    }
  }

  /**
    The marks after merging back, in order: the original ones less those shown and no longer
    displayed, then the displayed ones the original did not have.
   */
  lemma RestoredInOrder(original: seq<Annotation>, displayed: seq<Annotation>, ax: Axis, ay: Axis)
    requires ax.zoom != 0.0 && ay.zoom != 0.0
    ensures IdList(Restored(original, displayed, ax, ay))
         == Without(IdList(original), Ids(Shown(original, ax, ay)) - Ids(displayed)) + Without(IdList(displayed), Ids(original))
  {
    hide Shown, Merge, Additions, IdList, Without;
    var visible := ById(Shown(original, ax, ay));
    ByIdKeys(Shown(original, ax, ay));
    ByIdKeys(displayed);
    MergeOrder(original, visible, ById(displayed), ax, ay);
    AdditionOrder(displayed, Ids(original), ax, ay);
    IdListMore(Merge(original, visible, ById(displayed), ax, ay), Additions(displayed, Ids(original), ax, ay));
  }

  /** No later mark has the id of this one. */
  ghost predicate LastOfItsId(items: seq<Annotation>, item: Annotation) {
    exists i :: 0 <= i < |items| && items[i] == item && forall j :: i < j < |items| ==> items[j].id != item.id
  }

  lemma {:induction false} ByIdIsTheLast(items: seq<Annotation>, item: Annotation)
    requires LastOfItsId(items, item)
    ensures item.id in ById(items) && ById(items)[item.id] == item
  {
    var n := |items| - 1;
    var i :| 0 <= i < |items| && items[i] == item && forall j :: i < j < |items| ==> items[j].id != item.id;
    if i < n {
      var front := items[..n];
      assert front[i] == item && forall j :: i < j < |front| ==> front[j].id != item.id;
      assert items[n].id != item.id;
      ByIdIsTheLast(front, item);
    }
  }

  lemma {:induction false} MergeHolds(original: seq<Annotation>, visible: map<string, Annotation>, displayed: map<string, Annotation>, ax: Axis, ay: Axis, item: Annotation)
    requires item in original
    ensures forall one :: one in MergeOne(item, visible, displayed, ax, ay) ==> one in Merge(original, visible, displayed, ax, ay)
  {
    hide MergeOne;
    var n := |original| - 1;
    if item != original[n] {
      assert item in original[..n];
      MergeHolds(original[..n], visible, displayed, ax, ay, item);
    }
  }

  lemma {:induction false} AdditionsHold(displayed: seq<Annotation>, known: set<string>, ax: Axis, ay: Axis, d: Annotation)
    requires d in displayed && d.id !in known
    ensures RestoreOne(d, ax, ay) in Additions(displayed, known, ax, ay)
  {
    hide RestoreOne;
    var n := |displayed| - 1;
    if d != displayed[n] {
      assert d in displayed[..n];
      AdditionsHold(displayed[..n], known, ax, ay, d);
    }
  }

  /**
    What becomes of a displayed mark: a new one is stored; an original mark displayed as it was shown
    stays as it is, and one displayed otherwise is stored as displayed.
   */
  lemma EditsAreStored(original: seq<Annotation>, displayed: seq<Annotation>, ax: Axis, ay: Axis, d: Annotation)
    requires ax.zoom != 0.0 && ay.zoom != 0.0 && d in displayed
    ensures d.id !in Ids(original) ==> RestoreOne(d, ax, ay) in Restored(original, displayed, ax, ay)
    ensures forall item, shown :: item in original && item.id == d.id && LastOfItsId(displayed, d)
              && LastOfItsId(Shown(original, ax, ay), shown) && shown.id == d.id
              ==> (if d == shown then item else RestoreOne(d, ax, ay)) in Restored(original, displayed, ax, ay)
  {
    hide RestoreOne, Shown, Merge, Additions, LastOfItsId;
    if d.id !in Ids(original) {
      AdditionsHold(displayed, Ids(original), ax, ay, d);
    }
    forall item, shown | item in original && item.id == d.id && LastOfItsId(displayed, d)
              && LastOfItsId(Shown(original, ax, ay), shown) && shown.id == d.id
      ensures (if d == shown then item else RestoreOne(d, ax, ay)) in Restored(original, displayed, ax, ay)
    {
      ByIdIsTheLast(displayed, d);
      ByIdIsTheLast(Shown(original, ax, ay), shown);
      MergeHolds(original, ById(Shown(original, ax, ay)), ById(displayed), ax, ay, item);
    }
  }
}
