/**
 * The compare view page of the first extension version: the NIfTI-1
 * datatype names shown in its metadata line, its own `differenceInNames`,
 * its canvas bookkeeping and its message switch.
 */
module CompareView {
  import opened Common
  import opened NameDiff
  import opened ViewerSlots

  /** The NIfTI-1 `datatype` codes (the DT_* constants of nifti1.h) the page names. */
  const DatatypeCodes: seq<int> := [0, 1, 2, 4, 8, 16, 32, 64, 128, 255, 256, 512, 768, 1024, 1280, 1536, 1792, 2048, 2304]

  const UnknownDatatype := "unknown datatype code"

  /** `datatypeCodeToString`. */
  function DatatypeCodeToString(code: int): string
  {
    match code
      case 0 => "unknown"
      case 1 => "binary"
      case 2 => "uint8"
      case 4 => "int16"
      case 8 => "int32"
      case 16 => "float32"
      case 32 => "complex64"
      case 64 => "float64"
      case 128 => "rgb24"
      case 255 => "all"
      case 256 => "int8"
      case 512 => "uint16"
      case 768 => "uint32"
      case 1024 => "int64"
      case 1280 => "uint64"
      case 1536 => "float128"
      case 1792 => "complex128"
      case 2048 => "complex256"
      case 2304 => "rgba32"
      case _ => UnknownDatatype
  }

  /** Exactly the codes outside the NIfTI-1 table get the fallback text. */
  lemma DatatypeFallback(c: int)
    ensures DatatypeCodeToString(c) == UnknownDatatype <==> c !in DatatypeCodes
  {
  }

  /** The datatype names of the standard's common types. */
  lemma DatatypeExamples()
    ensures DatatypeCodeToString(2) == "uint8" && DatatypeCodeToString(4) == "int16"
    ensures DatatypeCodeToString(16) == "float32" && DatatypeCodeToString(64) == "float64"
    ensures DatatypeCodeToString(256) == "int8" && DatatypeCodeToString(512) == "uint16"
    ensures DatatypeCodeToString(3) == UnknownDatatype && DatatypeCodeToString(-1) == UnknownDatatype
  {
  }

  /**
   * The rules as written: the prefix back-off covers '.' and digits, the
   * suffix back-off digits, and the character at a suffix cut of length `k`
   * is read as `slice(-k, -k + 1)`.
   */
  const AsWrittenRules := NameDiff.Rules([DigitOrDot], [Digit], NegativeEnd)

  /** The same rules with the suffix character read as `slice(-k, length - k + 1)`. */
  const CorrectedRules := NameDiff.Rules([DigitOrDot], [Digit], LengthBased)

  /**
   * `differenceInNames` as written. There is no guard for an empty list: the
   * prefix loop then reads `names[0]` of an empty array and throws.
   */
  function DifferenceInNamesAsWritten(names: seq<string>): (r: Result<seq<string>>)
    ensures r.Err? <==> names == []
    ensures r.Ok? ==> |r.value| == |names|
  {
    if |names| == 0 then Err("names[0] is undefined") else Ok(Strip(names, AsWrittenRules))
  }

  /**
   * `differenceInNames` with the suffix probe corrected. The page as
   * written labels its viewers with `DifferenceInNamesAsWritten`.
   */
  function DifferenceInNames(names: seq<string>): (r: Result<seq<string>>)
    ensures r.Err? <==> names == []
    ensures r.Ok? ==> |r.value| == |names|
  {
    if |names| == 0 then Err("names[0] is undefined") else Ok(Strip(names, CorrectedRules))
  }

  /** Two two-character names that differ in their first character and share a final digit. */
  predicate DigitPair(x: string, y: string)
  {
    |x| == 2 && |y| == 2 && x[0] != y[0] && x[1] == y[1] && IsDigit(x[1])
  }

  /** Such a pair shares no prefix and a one-character suffix. */
  lemma DigitPairShared(x: string, y: string)
    requires DigitPair(x, y)
    ensures MinLen([x, y]) == 2
    ensures CommonPrefixLen([x, y], 2) == 0 && CommonSuffixLen([x, y], 2) == 1
  {
    DigitPairNoPrefix(x, y);
    DigitPairOneSuffix(x, y);
  }

  lemma DigitPairNoPrefix(x: string, y: string)
    requires DigitPair(x, y)
    ensures MinLen([x, y]) == 2 && CommonPrefixLen([x, y], 2) == 0
  {
    PairShares(x, y, 0);
    assert SharesPrefix([x, y], 0) by { assert Prefix(y, 0) == [] == Prefix(x, 0); }
    PairShares(x, y, 1);
    assert !SharesPrefix([x, y], 1) by { assert Prefix(y, 1)[0] != Prefix(x, 1)[0]; }
    CommonPrefixLenIs([x, y], 2, 0);
  }

  lemma DigitPairOneSuffix(x: string, y: string)
    requires DigitPair(x, y)
    ensures MinLen([x, y]) == 2 && CommonSuffixLen([x, y], 2) == 1
  {
    PairShares(x, y, 1);
    LastOfTwo(x);
    LastOfTwo(y);
    assert SharesSuffix([x, y], 1);
    PairShares(x, y, 2);
    WholeDiffers(y, x);
    assert !SharesSuffix([x, y], 2);
    CommonSuffixLenIs([x, y], 2, 1);
  }

  lemma LastOfTwo(s: string)
    requires |s| == 2
    ensures Suffix(s, 1) == [s[1]]
  {
  }

  lemma WholeDiffers(s: string, t: string)
    requires |s| == 2 && |t| == 2 && s[0] != t[0]
    ensures !SameEnd(s, t, 2)
  {
    assert Suffix(s, 2)[0] == s[0];
    assert Suffix(t, 2)[0] == t[0];
  }

  /** Two names share a prefix or suffix exactly when the second one starts or ends like the first. */
  lemma PairShares(x: string, y: string, k: nat)
    requires k <= |x| && k <= |y|
    ensures MinLen([x, y]) == if |x| <= |y| then |x| else |y|
    ensures SharesPrefix([x, y], k) <==> SameStart(y, x, k)
    ensures SharesSuffix([x, y], k) <==> SameEnd(y, x, k)
  {
    var names := [x, y];
    assert MinLen(names[1..]) == |y|;
    assert SameStart(names[0], names[0], k) && SameEnd(names[0], names[0], k);
    assert names[1] == y && names[0] == x;
  }

  /** Both rule sets leave the pair's prefix cut at 0. */
  lemma DigitPairStartCuts(x: string, y: string)
    requires DigitPair(x, y)
    ensures StartCut([x, y], AsWrittenRules) == 0 && StartCut([x, y], CorrectedRules) == 0
  {
    DigitPairShared(x, y);
    StartCutWithoutPrefix([x, y], AsWrittenRules);
    StartCutWithoutPrefix([x, y], CorrectedRules);
  }

  /** The pair's suffix cut stays at 1 as written and drops to 0 corrected. */
  lemma DigitPairEndCuts(x: string, y: string)
    requires DigitPair(x, y)
    ensures EndCut([x, y], AsWrittenRules) == 1 && EndCut([x, y], CorrectedRules) == 0
  {
    assert CommonSuffixLen([x, y], MinLen([x, y])) == 1 by {
      DigitPairShared(x, y);
    }
    EndCutFrom([x, y], AsWrittenRules, 1);
    EndCutFrom([x, y], CorrectedRules, 1);
    OneDigitSuffix(x);
  }

  /** A one-character suffix that is a digit: kept by the probe as written, backed off by the corrected one. */
  lemma OneDigitSuffix(s: string)
    requires |s| >= 1 && IsDigit(s[|s| - 1])
    ensures BackOffSuffixAll(s, 1, [Digit], NegativeEnd) == 1
    ensures BackOffSuffixAll(s, 1, [Digit], LengthBased) == 0
  {
    assert [Digit][1..] == [];
    NegativeEndStopsAtOne(s, Digit);
    BackOffSuffixStep(s, 1, Digit);
  }

  /**
   * As written, a shared trailing digit is cut off although the comment above
   * the loop says trailing digits stay: two names that differ only before a
   * common final digit lose that digit.
   */
  lemma AsWrittenDropsTrailingDigit(x: string, y: string)
    requires DigitPair(x, y)
    ensures DifferenceInNamesAsWritten([x, y]) == Ok([x[..1], y[..1]])
  {
    var names := [x, y];
    DigitPairStartCuts(x, y);
    DigitPairEndCuts(x, y);
    var c := Cut(names, 0, 1);
    assert Strip(names, AsWrittenRules) == c;
    KeepFromStart(x, 1);
    KeepFromStart(y, 1);
    assert c[0] == x[..1] && c[1] == y[..1];
    assert c == [x[..1], y[..1]];
  }

  /**
   * What the page shows for such a pair: the labels of two viewers named
   * "a1" and "b1" read "a" and "b".
   */
  lemma PageLabelsDropTrailingDigit(x: string, y: string)
    requires DigitPair(x, y)
    ensures Labels(DifferenceInNamesAsWritten([x, y]).value) == [x[..1], y[..1]]
  {
    AsWrittenDropsTrailingDigit(x, y);
    ShortLabels(x[..1], y[..1]);
  }

  /** Names of at most 25 characters are their own labels. */
  lemma ShortLabels(a: string, b: string)
    requires |a| <= 25 && |b| <= 25
    ensures Labels([a, b]) == [a, b]
  {
  }

  /** Corrected, the same two names are shown in full. */
  lemma CorrectedKeepsTrailingDigit(x: string, y: string)
    requires DigitPair(x, y)
    ensures DifferenceInNames([x, y]) == Ok([x, y])
  {
    assert Strip([x, y], CorrectedRules) == Cut([x, y], 0, 0) by {
      DigitPairStartCuts(x, y);
      DigitPairEndCuts(x, y);
    }
    CutNothing([x, y]);
  }

  /**
   * The intended property, which the corrected version has: a suffix cut
   * never begins with a digit, so a run of digits at the end of the shared
   * suffix stays in every name (and the pass keeps the cut names' shared
   * text out, as for the other versions).
   */
  lemma CorrectedKeepsDigitRuns(names: seq<string>)
    requires |names| > 0
    ensures var end := EndCut(names, CorrectedRules);
      end == 0 || !IsDigit(names[0][|names[0]| - end])
  {
    EndCutStops(names, CorrectedRules);
  }

  /** The label shown under a canvas: the last 25 characters of its name. */
  function Label(name: string): (r: string)
    ensures |r| <= 25 && EndsWith(name, r)
    ensures |name| <= 25 ==> r == name
  {
    LastChars(name, 25)
  }

  /** A viewer of the compare page: its volumes and the viewer it syncs to. */
  datatype ComparedViewer = ComparedViewer(volumes: seq<Volume>, sliceType: int, syncsWith: Option<nat>)

  /** An image to add: its name or URL, and whether the bytes came with the message. */
  datatype Item = Item(uri: string, hasData: bool)

  /** The messages the page's switch reads. */
  datatype PageMessage =
    | LocalDocument(item: Item)
    | WebUrl(url: string)
    | OverlayImage(item: Item)
    | Compare(item: Item)
    | AddImage(item: Item)
    | InitCanvas(n: Option<int>)   // None: the body has no `n`
    | Other(typeName: string)

  /** The sync targets after `addImage`'s loop: each viewer syncs with the next, the last with none. */
  function ChainedSyncs(viewers: seq<ComparedViewer>): (r: seq<ComparedViewer>)
    ensures |r| == |viewers|
  {
    seq(|viewers|, i requires 0 <= i < |viewers| =>
      viewers[i].(syncsWith := if i + 1 < |viewers| then Some(i + 1) else None))
  }

  function Labels(names: seq<string>): (r: seq<string>)
    ensures |r| == |names| && forall i :: 0 <= i < |names| ==> r[i] == Label(names[i])
  {
    seq(|names|, i requires 0 <= i < |names| => Label(names[i]))
  }

  /** `setNames`: the label of every viewer, the last 25 characters of its name difference. */
  method SetNames(viewers: seq<ComparedViewer>) returns (labels: seq<string>)
    requires |viewers| > 0
    ensures labels == Labels(DifferenceInNamesAsWritten(FirstVolumeNames(viewers)).value)
  {
    var diff := DifferenceInNamesAsWritten(FirstVolumeNames(viewers));
    labels := LabelAll(diff.value);
  }

  /** The loop of `setNames` that writes one label per name. */
  method LabelAll(names: seq<string>) returns (labels: seq<string>)
    ensures labels == Labels(names)
  {
    labels := [];
    var i := 0;
    while i < |names|
      invariant 0 <= i <= |names| && |labels| == i
      invariant forall j :: 0 <= j < i ==> labels[j] == Label(names[j])
    {
      labels := labels + [Label(names[i])];
      i := i + 1;
    }
  }

  lemma RangeSnoc(a: int, b: int)
    requires a <= b
    ensures Range(a, b + 1) == Range(a, b) + [b]
  {
  }

  lemma RangeSplit(a: int, m: int, b: int)
    requires a <= m <= b
    ensures Range(a, b) == Range(a, m) + Range(m, b)
  {
  }

  /** The page's state: its viewers, the canvases created for them and the labels shown. */
  class ComparePage {
    var viewers: seq<ComparedViewer>
    /** The ids of the canvases created so far, in creation order. */
    var canvasIds: seq<int>
    var nCanvas: nat
    var viewType: int
    /** The text of each viewer's name label. */
    var labels: seq<string>
    /** Errors thrown inside the asynchronous message handler. */
    var rejections: seq<string>

    /** Canvases are numbered 0, 1, 2, ... in creation order, and every viewer has one. */
    ghost predicate Valid()
      reads this`canvasIds, this`nCanvas, this`viewers
    {
      canvasIds == Range(0, nCanvas) && |viewers| <= nCanvas
    }

    constructor ()
      ensures Valid() && viewers == [] && nCanvas == 0 && viewType == 3 && labels == [] && rejections == []
    {
      viewers := [];
      canvasIds := [];
      nCanvas := 0;
      viewType := 3;
      labels := [];
      rejections := [];
    }

    /** `createCanvases(n)`: `n` new canvases with the next ids (none when `n` is missing). */
    method CreateCanvases(n: Option<int>)
      requires Valid()
      modifies this`canvasIds, this`nCanvas
      ensures Valid()
      ensures nCanvas == old(nCanvas) + (if n.Some? && n.value > 0 then n.value else 0)
      ensures canvasIds == old(canvasIds) + Range(old(nCanvas), nCanvas)
    {
      var count := if n.Some? && n.value > 0 then n.value else 0;
      var i := 0;
      while i < count
        invariant 0 <= i <= count
        invariant nCanvas == old(nCanvas) + i
        invariant canvasIds == Range(0, nCanvas)
      {
        RangeSnoc(0, nCanvas);
        canvasIds := canvasIds + [nCanvas];
        nCanvas := nCanvas + 1;
        i := i + 1;
      }
      RangeSplit(0, old(nCanvas), nCanvas);
    }

    /**
     * `setViewType(t)`: the view select takes `t`, and the 'change' event it
     * dispatches runs its listener at once, which sets every viewer's slice
     * type to `t`.
     */
    method SetViewType(t: int)
      requires Valid()
      modifies this`viewType, this`viewers
      ensures Valid()
      ensures viewType == t && viewers == Retyped(old(viewers), t)
    {
      viewType := t;
      var i := 0;
      while i < |viewers|
        invariant 0 <= i <= |viewers| == |old(viewers)|
        invariant viewType == t
        invariant forall j :: 0 <= j < i ==> viewers[j] == old(viewers)[j].(sliceType := t)
        invariant forall j :: i <= j < |viewers| ==> viewers[j] == old(viewers)[j]
      {
        viewers := viewers[i := viewers[i].(sliceType := t)];
        i := i + 1;
      }
      assert viewers == Retyped(old(viewers), t);
    }

    /**
     * The first part of `addImage(item)`: a canvas is created when viewer
     * `index` has none, `setViewType(viewType)` switches the viewers already
     * there to the page's view type, the new viewer gets that view type and
     * the item as its volume, and the viewers are chained for syncing.
     */
    method AddViewer(item: Item)
      requires Valid()
      modifies this`viewers, this`canvasIds, this`nCanvas, this`viewType
      ensures Valid()
      ensures nCanvas == if |old(viewers)| < old(nCanvas) then old(nCanvas) else old(nCanvas) + 1
      ensures viewType == old(viewType)
      ensures viewers == ChainedSyncs(Retyped(old(viewers), viewType) + [ComparedViewer([Volume(item.uri, None, None)], viewType, None)])
    {
      var index := |viewers|;
      if index >= nCanvas {
        CreateCanvases(Some(1));
      }
      SetViewType(viewType);
      viewers := viewers + [ComparedViewer([Volume(item.uri, None, None)], viewType, None)];
      viewers := ChainedSyncs(viewers);
    }

    /**
     * `addImage(item)`: add the viewer, then recompute the labels
     * (`setNames`). Afterwards every viewer shows the page's view type and
     * the earlier viewers keep their volumes.
     */
    method AddImage(item: Item)
      requires Valid()
      modifies this`viewers, this`labels, this`canvasIds, this`nCanvas, this`viewType
      ensures Valid()
      ensures nCanvas == if |old(viewers)| < old(nCanvas) then old(nCanvas) else old(nCanvas) + 1
      ensures viewType == old(viewType)
      ensures viewers == ChainedSyncs(Retyped(old(viewers), viewType) + [ComparedViewer([Volume(item.uri, None, None)], viewType, None)])
      ensures |viewers| == |old(viewers)| + 1
      ensures AllShow(viewers, viewType)
      ensures forall i :: 0 <= i < |old(viewers)| ==> viewers[i].volumes == old(viewers)[i].volumes
      ensures viewers[|old(viewers)|].volumes == [Volume(item.uri, None, None)]
      ensures labels == Labels(DifferenceInNamesAsWritten(FirstVolumeNames(viewers)).value)
    {
      AddViewer(item);
      AddedViewerShows(old(viewers), viewType, ComparedViewer([Volume(item.uri, None, None)], viewType, None));
      labels := SetNames(viewers);
    }

    /**
     * The message switch. 'compare' falls through into 'addImage', and both
     * fall through into 'initCanvas', whose `body.n` an image body lacks.
     */
    method HandleMessage(m: PageMessage)
      requires Valid()
      modifies this`viewers, this`labels, this`canvasIds, this`nCanvas, this`viewType, this`rejections
      ensures Valid()
      ensures m.Compare? ==> |viewers| == |old(viewers)| + 2 && viewType == 0
      ensures m.AddImage? || m.LocalDocument? || m.WebUrl? ==> |viewers| == |old(viewers)| + 1
      ensures m.Compare? || m.AddImage? ==> viewType == 0 && AllShow(viewers, 0)
      ensures m.LocalDocument? || m.WebUrl? ==> viewType == old(viewType) && AllShow(viewers, viewType)
      ensures m.InitCanvas? || m.Other? ==> viewers == old(viewers)
      ensures m.InitCanvas? ==> nCanvas == old(nCanvas) + (if m.n.Some? && m.n.value > 0 then m.n.value else 0)
      ensures m.Other? ==> nCanvas == old(nCanvas) && viewType == old(viewType) && rejections == old(rejections)
    {
      match m {
        case LocalDocument(item) =>
          AddImage(item);
        case WebUrl(url) =>
          AddImage(Item(url, false));
        case OverlayImage(item) =>
          AddOverlay(item);
        case Compare(item) =>
          CompareCase(item);
          CreateCanvases(None);
        case AddImage(item) =>
          ImageCase(item);
        case InitCanvas(n) =>
          CreateCanvases(n);
        case Other(_) =>
      }
    }

    /**
     * The 'addImage' case: `setViewType(0)` switches every viewer to the
     * axial view and the item is added before the fall-through.
     */
    method ImageCase(item: Item)
      requires Valid()
      modifies this`viewers, this`labels, this`canvasIds, this`nCanvas, this`viewType
      ensures Valid() && viewType == 0
      ensures |viewers| == |old(viewers)| + 1 && AllShow(viewers, 0)
      ensures forall i :: 0 <= i < |old(viewers)| ==> viewers[i].volumes == old(viewers)[i].volumes
    {
      SetViewType(0);
      AddImage(item);
      CreateCanvases(None);
    }

    /**
     * The 'compare' case: it sets the view type and adds the item, then falls
     * through into 'addImage', which does both again. The labels the first
     * `addImage` sets are overwritten by the second before anything reads
     * them, so only the second recomputes them here.
     */
    method CompareCase(item: Item)
      requires Valid()
      modifies this`viewers, this`labels, this`canvasIds, this`nCanvas, this`viewType
      ensures Valid() && viewType == 0
      ensures |viewers| == |old(viewers)| + 2 && AllShow(viewers, 0)
      ensures forall i :: 0 <= i < |old(viewers)| ==> viewers[i].volumes == old(viewers)[i].volumes
      ensures labels == Labels(DifferenceInNamesAsWritten(FirstVolumeNames(viewers)).value)
    {
      SetViewType(0);
      AddViewer(item);
      ChainedSyncsKeeps(Retyped(old(viewers), 0) + [ComparedViewer([Volume(item.uri, None, None)], 0, None)]);
      SetViewType(0);
      AddImage(item);
    }

    /** `addOverlay(item)`: a 'redyell' volume on the first viewer; with no viewer the handler throws. */
    method AddOverlay(item: Item)
      requires Valid()
      modifies this`viewers, this`rejections
      ensures Valid()
      ensures |old(viewers)| == 0 ==> viewers == old(viewers) && rejections == old(rejections) + ["nvArray[0] is undefined"]
      ensures |old(viewers)| > 0 ==>
        rejections == old(rejections) && viewers == old(viewers)[0 := old(viewers)[0].(volumes := old(viewers)[0].volumes + [Volume(item.uri, Some("redyell"), None)])]
    {
      if |viewers| == 0 {
        rejections := rejections + ["nvArray[0] is undefined"];
      } else {
        viewers := viewers[0 := viewers[0].(volumes := viewers[0].volumes + [Volume(item.uri, Some("redyell"), None)])];
      }
    }
  }

  /** The first volume name of every viewer (`item.volumes[0].name`); every viewer the page adds has one. */
  function FirstVolumeNames(viewers: seq<ComparedViewer>): (r: seq<string>)
    ensures |r| == |viewers|
    ensures forall i :: 0 <= i < |viewers| && |viewers[i].volumes| > 0 ==> r[i] == viewers[i].volumes[0].name
  {
    seq(|viewers|, i requires 0 <= i < |viewers| => if |viewers[i].volumes| > 0 then viewers[i].volumes[0].name else "")
  }

  /** Every viewer switched to slice type `t`, each keeping its volumes and sync target. */
  function Retyped(viewers: seq<ComparedViewer>, t: int): (r: seq<ComparedViewer>)
    ensures |r| == |viewers|
    ensures AllShow(r, t)
    ensures forall i :: 0 <= i < |r| ==> r[i].volumes == viewers[i].volumes && r[i].syncsWith == viewers[i].syncsWith
  {
    seq(|viewers|, i requires 0 <= i < |viewers| => viewers[i].(sliceType := t))
  }

  /** Every viewer shows slice type `t`. */
  predicate AllShow(viewers: seq<ComparedViewer>, t: int)
  {
    forall i :: 0 <= i < |viewers| ==> viewers[i].sliceType == t
  }

  /**
   * After `addImage` every viewer, old or new, shows the view type, and the
   * viewers keep their volumes: the old ones theirs, the new one its own.
   */
  lemma AddedViewerShows(viewers: seq<ComparedViewer>, t: int, v: ComparedViewer)
    requires v.sliceType == t
    ensures var r := ChainedSyncs(Retyped(viewers, t) + [v]);
      && |r| == |viewers| + 1
      && AllShow(r, t)
      && (forall i :: 0 <= i < |viewers| ==> r[i].volumes == viewers[i].volumes)
      && r[|viewers|].volumes == v.volumes
  {
    var s := Retyped(viewers, t) + [v];
    ChainedSyncsKeeps(s);
    assert forall i :: 0 <= i < |viewers| ==> s[i] == Retyped(viewers, t)[i];
  }

  /** Chaining changes only whom each viewer syncs with: volumes and view types stay. */
  lemma ChainedSyncsKeeps(viewers: seq<ComparedViewer>)
    ensures var r := ChainedSyncs(viewers);
      forall i :: 0 <= i < |r| ==> r[i].volumes == viewers[i].volumes && r[i].sliceType == viewers[i].sliceType
  {
  }

  /** Syncing goes one way: viewer i follows into i + 1 only, and nothing syncs back into viewer 0. */
  lemma SyncIsOneWay(viewers: seq<ComparedViewer>)
    ensures var r := ChainedSyncs(viewers);
      (forall i :: 0 <= i < |r| ==> r[i].syncsWith.None? || r[i].syncsWith.value == i + 1)
      && (forall i :: 0 <= i < |r| && r[i].syncsWith.Some? ==> r[i].syncsWith.value != 0)
      && (|r| > 0 ==> r[|r| - 1].syncsWith.None?)
  {
  }
}
