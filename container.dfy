/**
 * The grid of viewer cards (`Container`): removing a card, the names the
 * cards show, which viewers each viewer broadcasts to, and the canvas size
 * that fits every card into the available area.
 */
module Container {
  import opened Common
  import opened Instances

  /** `splice(i, 1)`: a negative `i` counts from the end; an index past the end removes nothing. */
  function Spliced<T>(a: seq<T>, i: int): (r: seq<T>)
    ensures var k := SliceIndex(i, |a|);
      && (k < |a| ==> |r| == |a| - 1 && r == a[..k] + a[k + 1..])
      && (k == |a| ==> r == a)
  {
    var k := SliceIndex(i, |a|);
    if k < |a| then a[..k] + a[k + 1..] else a
  }

  /** Removing card `i` keeps every other card, in order. */
  lemma SplicedKeepsOthers<T>(a: seq<T>, i: nat)
    requires i < |a|
    ensures |Spliced(a, i)| == |a| - 1
    ensures forall j :: 0 <= j < i ==> Spliced(a, i)[j] == a[j]
    ensures forall j :: i < j < |a| ==> Spliced(a, i)[j - 1] == a[j]
    ensures multiset(Spliced(a, i)) + multiset{a[i]} == multiset(a)
  {
    assert a == a[..i] + [a[i]] + a[i + 1..];
  }

  /** The app signals `remove` writes: the instance list and the location text. */
  class Cards {
    var nvArray: seq<Instance>
    var location: string

    constructor (instances: seq<Instance>, loc: string)
      ensures nvArray == instances && location == loc
    {
      nvArray := instances;
      location := loc;
    }

    /** `remove(props, i)()`: the card leaves the list; an empty list clears the location. */
    method Remove(i: int)
      modifies this
      ensures nvArray == Spliced(old(nvArray), i)
      ensures location == (if nvArray == [] then "" else old(location))
    {
      nvArray := Spliced(nvArray, i);
      if |nvArray| == 0 {
        location := "";
      }
    }
  }

  /** The name of one card: its first volume's, else its first mesh's, else empty. */
  function CardName(nv: Instance): (r: string)
    ensures |nv.volumes| > 0 ==> r == nv.volumes[0].name
    ensures |nv.volumes| == 0 && |nv.meshes| > 0 ==> r == nv.meshes[0].name
    ensures |nv.volumes| == 0 && |nv.meshes| == 0 ==> r == ""
  {
    if |nv.volumes| > 0 then nv.volumes[0].name
    else if |nv.meshes| > 0 then nv.meshes[0].name
    else ""
  }

  /** `getNames`: one name per card, in card order. */
  function Names(a: seq<Instance>): (r: seq<string>)
    ensures |r| == |a|
    ensures forall i :: 0 <= i < |a| ==> r[i] == CardName(a[i])
  {
    seq(|a|, i requires 0 <= i < |a| => CardName(a[i]))
  }

  /** Removing a card removes its name and keeps the others' names in order. */
  lemma NamesAfterRemove(a: seq<Instance>, i: nat)
    requires i < |a|
    ensures Names(Spliced(a, i)) == Spliced(Names(a), i)
  {
    var left := Names(Spliced(a, i));
    var right := Spliced(Names(a), i);
    assert Spliced(a, i) == a[..i] + a[i + 1..];
    assert right == Names(a)[..i] + Names(a)[i + 1..];
    assert forall j :: 0 <= j < |left| ==> left[j] == right[j];
  }

  /** The viewers card `i` broadcasts to: every other loaded card, in card order. */
  function BroadcastTargets(a: seq<Instance>, i: int): (r: seq<nat>)
    ensures forall j :: j in r <==> 0 <= j < |a| && j != i && a[j].isLoaded
    ensures forall p, q :: 0 <= p < q < |r| ==> r[p] < r[q]
  {
    Loaded(a, i, 0)
  }

  function Loaded(a: seq<Instance>, i: int, from: nat): (r: seq<nat>)
    ensures forall j :: j in r <==> from <= j < |a| && j != i && a[j].isLoaded
    ensures forall p :: 0 <= p < |r| ==> from <= r[p]
    ensures forall p, q :: 0 <= p < q < |r| ==> r[p] < r[q]
    decreases |a| - from
  {
    if from >= |a| then []
    else (if from != i && a[from].isLoaded then [from] else []) + Loaded(a, i, from + 1)
  }

  /**
   * `syncVolumes`: between loaded cards the broadcast goes both ways, and
   * no card broadcasts to itself.
   */
  lemma BroadcastSymmetric(a: seq<Instance>, i: nat, j: nat)
    requires i < |a| && j < |a|
    ensures i !in BroadcastTargets(a, i)
    ensures a[i].isLoaded && j in BroadcastTargets(a, i) ==> i in BroadcastTargets(a, j)
    ensures a[i].isLoaded && a[j].isLoaded && i != j ==> j in BroadcastTargets(a, i)
  {
  }

  /** What `getImageMetadata()` reports of the first volume: its dimensions and voxel sizes. */
  datatype Meta = Meta(nx: int, ny: int, nz: int, dx: real, dy: real, dz: real)

  /**
   * `getAspectRatio`: 1 without metadata (no first volume, or `nx` unset or
   * 0) and for a slice type other than the four planar ones; otherwise the
   * width over the height of the shown plane. `None` stands for the
   * division by zero the source turns into a non-finite number.
   */
  function AspectRatio(meta: Option<Meta>, sliceType: SliceType): (r: Option<real>)
    ensures meta.None? || meta.value.nx == 0 || sliceType == Render ==> r == Some(1.0)
    ensures meta.Some? && meta.value.nx != 0 ==>
      var m := meta.value;
      var (x, y, z) := (Extent(m.nx, m.dx), Extent(m.ny, m.dy), Extent(m.nz, m.dz));
      && (sliceType == Axial ==> r == Quotient(x, y))
      && (sliceType == Coronal ==> r == Quotient(x, z))
      && (sliceType == Sagittal ==> r == Quotient(y, z))
      && (sliceType == Multiplanar ==> r == Quotient(x + y, z + y))
  {
    if meta.None? || meta.value.nx == 0 then Some(1.0)
    else
      var m := meta.value;
      var x := Extent(m.nx, m.dx);
      var y := Extent(m.ny, m.dy);
      var z := Extent(m.nz, m.dz);
      match sliceType
      case Axial => Quotient(x, y)
      case Coronal => Quotient(x, z)
      case Sagittal => Quotient(y, z)
      case Multiplanar => Quotient(x + y, z + y)
      case Render => Some(1.0)
  }

  /** A cube of voxels has aspect ratio 1 in every view. */
  lemma CubeIsSquare(n: int, d: real, sliceType: SliceType)
    requires n != 0 && d != 0.0
    ensures AspectRatio(Some(Meta(n, n, n, d, d, d)), sliceType) == Some(1.0)
  {
    var e := Extent(n, d);
    assert e != 0.0 by {
      assert n as real != 0.0;
    }
    assert e / e == 1.0;
    assert (e + e) / (e + e) == 1.0;
  }

  /** The size of the image along one axis: voxel count times voxel size. */
  function Extent(n: int, d: real): real
  {
    n as real * d
  }

  function Quotient(p: real, q: real): (r: Option<real>)
    ensures r.Some? <==> q != 0.0
    ensures r.Some? ==> r.value * q == p
  {
    if q == 0.0 then None else Some(p / q)
  }

  /** The gap between cards, in pixels. */
  const Gap := 4

  /** `Math.ceil(n / nrow)` for positive integers. */
  function CeilDiv(n: nat, d: nat): (r: nat)
    requires n > 0 && d > 0
    ensures r >= 1 && (r - 1) * d < n <= r * d
  {
    (n + d - 1) / d
  }

  function Min(x: real, y: real): real
  {
    if x <= y then x else y
  }

  /**
   * The widest card that fits when the `n` cards are laid out in `nrow`
   * rows: limited by the column width and by the row height times the
   * aspect ratio, each less the gap.
   */
  function RowFit(n: nat, nrow: nat, width: int, height: int, aspect: real): int
    requires n > 0 && nrow > 0
  {
    var ncol := CeilDiv(n, nrow);
    var maxHeight := height / nrow - Gap;
    Min(width as real / ncol as real - Gap as real, maxHeight as real * aspect).Floor
  }

  /**
   * `getCanvasSize`'s width: no card count is treated as one, and the width
   * is the largest fit over every row count from 1 to the card count, or 0
   * when no layout fits.
   */
  method CanvasWidth(nCanvas: nat, width: int, height: int, aspect: real) returns (bestWidth: int)
    ensures var n := if nCanvas == 0 then 1 else nCanvas;
      && bestWidth >= 0
      && (forall nrow :: 1 <= nrow <= n ==> bestWidth >= RowFit(n, nrow, width, height, aspect))
      && (bestWidth == 0 || exists nrow :: 1 <= nrow <= n && bestWidth == RowFit(n, nrow, width, height, aspect))
  {
    var n := if nCanvas == 0 then 1 else nCanvas;
    bestWidth := 0;
    var nrow := 1;
    while nrow <= n
      invariant 1 <= nrow <= n + 1
      invariant bestWidth >= 0
      invariant forall k :: 1 <= k < nrow ==> bestWidth >= RowFit(n, k, width, height, aspect)
      invariant bestWidth == 0 || exists k :: 1 <= k < nrow && bestWidth == RowFit(n, k, width, height, aspect)
    {
      var maxWidth := RowFit(n, nrow, width, height, aspect);
      if maxWidth > bestWidth {
        bestWidth := maxWidth;
      }
      nrow := nrow + 1;
    }
  }

  /** `getCanvasSize`'s height: the width over the aspect ratio; `None` where that is not finite. */
  function CanvasHeight(bestWidth: int, aspect: real): (r: Option<real>)
    ensures r.Some? <==> aspect != 0.0
    ensures r.Some? ==> r.value * aspect == bestWidth as real
  {
    Quotient(bestWidth as real, aspect)
  }

  /** A single card fills the area in one row: its width is the smaller of the two limits. */
  lemma OneCardFit(width: int, height: int, aspect: real)
    ensures RowFit(1, 1, width, height, aspect) == Min(width as real - 4.0, (height - 4) as real * aspect).Floor
  {
    assert CeilDiv(1, 1) == 1;
  }
}

/**
 * The oldest interface's grid (`niivue/components/Container`): the same
 * names, broadcast targets and canvas fit, a `remove` that also resets
 * `nv0`, and an available area computed from the window and the header
 * and footer heights.
 */
module OldContainer {
  import opened Common
  import opened Instances
  import C = Container

  /** The app signals its `remove` writes: the instances, `nv0` (`None` for `{isLoaded: false}`), the location. */
  class OldCards {
    var nvArray: seq<Instance>
    var nv0: Option<Instance>
    var location: string

    constructor (instances: seq<Instance>, first: Option<Instance>, loc: string)
      ensures nvArray == instances && nv0 == first && location == loc
    {
      nvArray := instances;
      nv0 := first;
      location := loc;
    }

    /** `remove(props, i)()`: an empty list also resets `nv0` to an unloaded placeholder. */
    method Remove(i: int)
      modifies this
      ensures nvArray == C.Spliced(old(nvArray), i)
      ensures nvArray == [] ==> nv0.None? && location == ""
      ensures nvArray != [] ==> nv0 == old(nv0) && location == old(location)
    {
      nvArray := C.Spliced(nvArray, i);
      if |nvArray| == 0 {
        nv0 := None;
        location := "";
      }
    }
  }

  /** The default height of a header or footer that has not rendered yet. */
  const DefaultBarHeight := 20

  /**
   * `calculateDimensions`: the window less a 10-pixel margin across, and
   * less the header and footer heights (20 each until they render) down.
   */
  function AvailableSize(windowWidth: int, windowHeight: int, header: Option<int>, footer: Option<int>): (r: (int, int))
    ensures r.0 == windowWidth - 10
    ensures r.1 + (if header.Some? then header.value else 20) + (if footer.Some? then footer.value else 20) == windowHeight
  {
    var h := if header.Some? then header.value else DefaultBarHeight;
    var f := if footer.Some? then footer.value else DefaultBarHeight;
    (windowWidth - 10, windowHeight - h - f)
  }

  /** More height never narrows a row layout's fit. */
  lemma {:induction false} RowFitGrowsWithHeight(n: nat, nrow: nat, width: int, h1: int, h2: int, aspect: real)
    requires n > 0 && nrow > 0 && h1 <= h2 && aspect >= 0.0
    ensures C.RowFit(n, nrow, width, h1, aspect) <= C.RowFit(n, nrow, width, h2, aspect)
  {
    var w := width as real / C.CeilDiv(n, nrow) as real - C.Gap as real;
    var m1 := h1 / nrow - C.Gap;
    var m2 := h2 / nrow - C.Gap;
    DivMonotone(h1, h2, nrow);
    ScaleMonotone(m1, m2, aspect);
    FloorOfMinMonotone(w, m1 as real * aspect, m2 as real * aspect);
  }

  /** Raising one side of a minimum never lowers its floor. */
  lemma FloorOfMinMonotone(w: real, x1: real, x2: real)
    requires x1 <= x2
    ensures C.Min(w, x1).Floor <= C.Min(w, x2).Floor
  {
  }

  /** Scaling by a non-negative ratio keeps the order of two heights. */
  lemma ScaleMonotone(m1: int, m2: int, aspect: real)
    requires m1 <= m2 && aspect >= 0.0
    ensures m1 as real * aspect <= m2 as real * aspect
  {
    assert m2 as real * aspect - m1 as real * aspect == (m2 - m1) as real * aspect;
  }

  lemma DivMonotone(a: int, b: int, d: nat)
    requires a <= b && d > 0
    ensures a / d <= b / d
  {
    var q1, q2 := a / d, b / d;
    if q1 > q2 {
      MulMonotone(d, q2 + 1, q1);
      assert false;
    }
  }

  /** Multiplying by a natural number keeps the order of two integers. */
  lemma MulMonotone(d: nat, x: int, y: int)
    requires x <= y
    ensures d * x <= d * y
  {
    assert d * y - d * x == d * (y - x);
  }

  /**
   * The available area feeds the canvas fit: a header or footer that
   * renders taller than the 20 pixels reserved for it never widens the
   * canvases, and one that renders at exactly 20 changes nothing.
   */
  lemma BarsNarrowTheFit(w: int, h: int, header: int, footer: int, n: nat, nrow: nat, aspect: real)
    requires n > 0 && nrow > 0 && aspect >= 0.0 && header >= DefaultBarHeight && footer >= DefaultBarHeight
    ensures var before := AvailableSize(w, h, None, None);
      var after := AvailableSize(w, h, Some(header), Some(footer));
      C.RowFit(n, nrow, after.0, after.1, aspect) <= C.RowFit(n, nrow, before.0, before.1, aspect)
    ensures AvailableSize(w, h, Some(DefaultBarHeight), Some(DefaultBarHeight)) == AvailableSize(w, h, None, None)
  {
    var before := AvailableSize(w, h, None, None);
    var after := AvailableSize(w, h, Some(header), Some(footer));
    RowFitGrowsWithHeight(n, nrow, before.0, after.1, before.1, aspect);
  }
}
