/**
 * The viewer array: one slot per canvas, each slot an extended viewer
 * instance with the `isNew` / `isLoaded` / `body` fields it adds, plus the
 * volumes and meshes it holds. `growNvArrayBy` and
 * `getUnitinializedNvInstance` are the same in all three event listeners.
 */
module ViewerSlots {
  import opened Common
  import opened Messages

  /** The per-layer options passed to the mesh-layer reader (`LayerOptions`). */
  datatype LayerOptions = LayerOptions(
    opacity: Option<real>,
    colormap: Option<string>,
    colormapNegative: Option<string>,
    useNegativeCmap: Option<bool>,
    calMin: Option<real>,
    calMax: Option<real>)

  const NoOptions := LayerOptions(None, None, None, None, None, None)

  /** A mesh layer; `colorbarVisible` is None while it keeps the viewer's default. */
  datatype Layer = Layer(uri: string, options: LayerOptions, colorbarVisible: Option<bool>)

  /**
   * A mesh. `readRequests` records layers handed to the viewer's reader by
   * code that does not keep the reader's result.
   */
  datatype Mesh = Mesh(name: string, opacity: Option<real>, layers: seq<Layer>, readRequests: seq<Layer>)

  /** A volume added to a slot; None fields keep the viewer's defaults. */
  datatype Volume = Volume(name: string, colormap: Option<string>, opacity: Option<real>)

  datatype Slot = Slot(
    isNew: bool,
    isLoaded: bool,
    body: Option<ImageBody>,
    volumes: seq<Volume>,
    meshes: seq<Mesh>,
    isColorbar: bool)

  /** A slot as the constructor leaves it: new, not loaded, no body. */
  const FreshSlot := Slot(true, false, None, [], [], false)

  function FreshSlots(n: nat): (r: seq<Slot>)
    ensures |r| == n
    ensures forall i :: 0 <= i < n ==> r[i] == FreshSlot
  {
    seq(n, _ => FreshSlot)
  }

  /** The index `find(nv => nv.isNew)` lands on, if any. */
  function FirstNew(s: seq<Slot>): (r: Option<nat>)
    ensures r.None? <==> forall i :: 0 <= i < |s| ==> !s[i].isNew
    ensures r.Some? ==> r.value < |s| && s[r.value].isNew
    ensures r.Some? ==> forall i :: 0 <= i < r.value ==> !s[i].isNew
  {
    if |s| == 0 then None
    else if s[0].isNew then Some(0)
    else match FirstNew(s[1..])
      case None => None
      case Some(k) => Some(k + 1)
  }

  /** Number of slots still waiting for an image. */
  function NewCount(s: seq<Slot>): (r: nat)
    ensures r <= |s|
  {
    if |s| == 0 then 0 else NewCount(s[..|s| - 1]) + (if s[|s| - 1].isNew then 1 else 0)
  }

  lemma {:induction false} NewCountAppend(a: seq<Slot>, b: seq<Slot>)
    ensures NewCount(a + b) == NewCount(a) + NewCount(b)
    decreases |b|
  {
    if |b| == 0 {
      assert a + b == a;
    } else {
      assert (a + b)[..|a + b| - 1] == a + b[..|b| - 1];
      NewCountAppend(a, b[..|b| - 1]);
    }
  }

  lemma {:induction false} NewCountFresh(n: nat)
    ensures NewCount(FreshSlots(n)) == n
  {
    if n > 0 {
      assert FreshSlots(n)[..n - 1] == FreshSlots(n - 1);
      NewCountFresh(n - 1);
    }
  }

  /** Replacing one slot changes the count by the difference of the two flags. */
  lemma {:induction false} NewCountUpdate(s: seq<Slot>, i: nat, x: Slot)
    requires i < |s|
    ensures NewCount(s[i := x]) + (if s[i].isNew then 1 else 0) == NewCount(s) + (if x.isNew then 1 else 0)
    decreases |s|
  {
    var t := s[i := x];
    if i == |s| - 1 {
      assert t[..|t| - 1] == s[..|s| - 1];
    } else {
      assert t[..|t| - 1] == s[..|s| - 1][i := x];
      NewCountUpdate(s[..|s| - 1], i, x);
    }
  }

  /** The slot an `addImage` fills: the first new one, or a slot appended at the end. */
  function ClaimIndex(s: seq<Slot>): (r: nat)
    ensures r <= |s|
    ensures r < |s| ==> s[r].isNew && forall i :: 0 <= i < r ==> !s[i].isNew
    ensures r == |s| ==> forall i :: 0 <= i < |s| ==> !s[i].isNew
  {
    match FirstNew(s)
      case Some(k) => k
      case None => |s|
  }

  /** The array after `getUnitinializedNvInstance`: unchanged, or one fresh slot longer. */
  function Claimed(s: seq<Slot>): seq<Slot>
  {
    if ClaimIndex(s) < |s| then s else s + [FreshSlot]
  }

  /** The array after `addImage`: the claimed slot stores the body and is no longer new. */
  function AfterAddImage(s: seq<Slot>, body: ImageBody): seq<Slot>
  {
    var c := Claimed(s);
    var k := ClaimIndex(s);
    assert k < |c|;
    c[k := c[k].(body := Some(body), isNew := false)]
  }

  /**
   * `addImage` changes exactly one slot: the first new slot when there is one
   * (the length stays), otherwise one appended slot. That slot stores the
   * body and stops being new; every other slot is unchanged.
   */
  lemma AddImageClaims(s: seq<Slot>, body: ImageBody)
    ensures var r := AfterAddImage(s, body);
      var k := ClaimIndex(s);
      && |r| == (if FirstNew(s).Some? then |s| else |s| + 1)
      && k < |r| && r[k].body == Some(body) && !r[k].isNew
      && (k < |s| ==> r[k] == s[k].(body := Some(body), isNew := false))
      && (k == |s| ==> r[k] == FreshSlot.(body := Some(body), isNew := false))
      && forall i :: 0 <= i < |s| && i != k ==> r[i] == s[i]
  {
  }

  /** Each `addImage` uses up one waiting slot, if there was one. */
  lemma {:induction false} AddImageNewCount(s: seq<Slot>, body: ImageBody)
    ensures NewCount(AfterAddImage(s, body)) == if FirstNew(s).Some? then NewCount(s) - 1 else NewCount(s)
  {
    var c := Claimed(s);
    var k := ClaimIndex(s);
    if k == |s| {
      NewCountAppend(s, [FreshSlot]);
      assert [FreshSlot][..0] == [];
      assert NewCount([FreshSlot]) == 1;
    }
    NewCountUpdate(c, k, c[k].(body := Some(body), isNew := false));
  }

  class ViewerArray {
    var slots: seq<Slot>
    var sliceType: SliceType
    /** Messages the page posts to itself (`window.postMessage`). */
    var posted: seq<Message>
    /** Errors thrown inside asynchronous handlers (rejected promises), in order. */
    var rejections: seq<string>
    /** How often the array signal was reassigned to trigger a rerender. */
    var rerenders: nat

    constructor (initialSliceType: SliceType)
      ensures slots == [] && sliceType == initialSliceType
      ensures posted == [] && rejections == [] && rerenders == 0
    {
      slots := [];
      sliceType := initialSliceType;
      posted := [];
      rejections := [];
      rerenders := 0;
    }

    /** `growNvArrayBy(n)`: append `n` fresh slots, one per loop turn. */
    method GrowBy(n: int)
      modifies this`slots
      ensures slots == old(slots) + FreshSlots(if n < 0 then 0 else n)
    {
      var i := 0;
      while i < n
        invariant 0 <= i && (n >= 0 ==> i <= n) && (n < 0 ==> i == 0)
        invariant slots == old(slots) + FreshSlots(i)
        decreases n - i
      {
        slots := slots + [FreshSlot];
        assert FreshSlots(i) + [FreshSlot] == FreshSlots(i + 1);
        i := i + 1;
      }
    }

    /** `getUnitinializedNvInstance`: the first new slot, or a new last slot. */
    method ClaimSlot() returns (k: nat)
      modifies this`slots
      ensures slots == Claimed(old(slots)) && k == ClaimIndex(old(slots)) && k < |slots|
    {
      var found := FirstNew(slots);
      if found.Some? {
        k := found.value;
      } else {
        GrowBy(1);
        assert FreshSlots(1) == [FreshSlot];
        k := |slots| - 1;
      }
    }

    /** Store a message body in a claimed slot and mark it used (`nv.body = body; nv.isNew = false`). */
    method FillSlot(k: nat, body: ImageBody)
      requires k < |slots|
      modifies this`slots
      ensures slots == old(slots)[k := old(slots)[k].(body := Some(body), isNew := false)]
    {
      slots := slots[k := slots[k].(body := Some(body), isNew := false)];
    }
  }
}
