/**
 * One viewer card of the React interface (`Volume`): the name it shows,
 * how a click changes the selection, the drop that reorders cards, the
 * effect that stops playback, and when a volume counts as 4D.
 */
module VolumePanel {
  import opened Common
  import opened Instances
  import opened AppState

  /** The name shown on a card: longer than 20 characters, "..." and the last 20. */
  function DispName(name: string): (r: string)
    ensures |name| <= 20 ==> r == name
    ensures |name| > 20 ==> |r| == 23 && r[..3] == "..." && r[3..] == name[|name| - 20..]
    ensures EndsWith(name, r) || EndsWith(name, r[3..])
  {
    if |name| > 20 then "..." + JsSlice(name, -20, |name|) else name
  }

  /** `selection.filter((i) => i != volumeIndex)`. */
  function Without(sel: seq<int>, index: int): (r: seq<int>)
    ensures forall i :: i in r <==> i in sel && i != index
    ensures |r| <= |sel|
  {
    if |sel| == 0 then []
    else (if sel[0] != index then [sel[0]] else []) + Without(sel[1..], index)
  }

  /** A selection that does not hold the index is left as it is. */
  lemma {:induction false} WithoutAbsent(sel: seq<int>, index: int)
    requires index !in sel
    ensures Without(sel, index) == sel
    decreases |sel|
  {
    if |sel| > 0 {
      assert sel[0] in sel;
      assert forall i :: i in sel[1..] ==> i in sel;
      WithoutAbsent(sel[1..], index);
    }
  }

  /** A click in multiple selection: the card leaves the selection if it is in it, else joins at the end. */
  function ToggleMember(sel: seq<int>, index: int): (r: seq<int>)
    ensures index in r <==> index !in sel
    ensures forall i :: i != index ==> (i in r <==> i in sel)
  {
    if index in sel then Without(sel, index) else sel + [index]
  }

  /** Clicking the same card twice restores a selection that did not hold it. */
  lemma ToggleMemberTwice(sel: seq<int>, index: int)
    requires index !in sel
    ensures ToggleMember(ToggleMember(sel, index), index) == sel
  {
    assert index in sel + [index];
    WithoutAppend(sel, index);
  }

  lemma WithoutAppend(sel: seq<int>, index: int)
    requires index !in sel
    ensures Without(sel + [index], index) == sel
  {
    WithoutSplit(sel, [index], index);
    WithoutAbsent(sel, index);
    assert Without([index], index) == [];
    assert sel + [] == sel;
  }

  lemma {:induction false} WithoutSplit(a: seq<int>, b: seq<int>, index: int)
    ensures Without(a + b, index) == Without(a, index) + Without(b, index)
    decreases |a|
  {
    if |a| == 0 {
      assert a + b == b;
    } else {
      assert (a + b)[0] == a[0] && (a + b)[1..] == a[1..] + b;
      WithoutSplit(a[1..], b, index);
    }
  }

  /**
   * `selectClick`: SINGLE selects only this card, MULTIPLE toggles it, and
   * with no selection mode nothing changes.
   */
  function SelectAfterClick(sel: seq<int>, mode: SelectionMode, index: int): (r: seq<int>)
    ensures mode == NoSelection ==> r == sel
    ensures mode == SingleSelection ==> r == [index]
    ensures mode == MultipleSelection ==> r == ToggleMember(sel, index)
  {
    match mode
    case SingleSelection => [index]
    case MultipleSelection => ToggleMember(sel, index)
    case NoSelection => sel
  }

  /** What `parseInt` makes of the dragged text: a number, or NaN. */
  datatype Parsed = Num(n: int) | NaN

  /** `fromIndex !== toIndex`: NaN differs from every index. */
  predicate Differs(from: Parsed, to: int)
    ensures Differs(from, to) <==> from != Num(to)
    ensures from.NaN? ==> Differs(from, to)
  {
    from.NaN? || from.n != to
  }

  /**
   * The reorder the drop is meant to make (`reorderImages`): the dragged
   * card is taken out and put back at the target position.
   */
  function Move<T>(a: seq<T>, from: nat, to: nat): (r: seq<T>)
    requires from < |a| && to < |a|
    ensures |r| == |a| && r[to] == a[from]
    ensures multiset(r) == multiset(a)
    ensures from == to ==> r == a
  {
    var rest := a[..from] + a[from + 1..];
    assert a == a[..from] + [a[from]] + a[from + 1..];
    assert multiset(rest + [a[from]]) == multiset(a);
    assert rest[..to] + [a[from]] + rest[to..] == rest[..to] + ([a[from]] + rest[to..]);
    assert rest == rest[..to] + rest[to..];
    rest[..to] + [a[from]] + rest[to..]
  }

  /** Cards between the two positions shift by one toward the old position; the rest stay. */
  lemma MoveShifts<T>(a: seq<T>, from: nat, to: nat)
    requires from < |a| && to < |a|
    ensures forall i :: 0 <= i < from && 0 <= i < to ==> Move(a, from, to)[i] == a[i]
    ensures forall i :: from < i < |a| && to < i < |a| ==> Move(a, from, to)[i] == a[i]
    ensures forall i :: from <= i < to ==> Move(a, from, to)[i] == a[i + 1]
    ensures forall i :: to < i <= from ==> Move(a, from, to)[i] == a[i - 1]
  {
  }

  /** The reorder tests' first case: the first of three moves to the end. */
  lemma MoveFirstToLast<T>(x: T, y: T, z: T)
    ensures Move([x, y, z], 0, 2) == [y, z, x]
  {
    var a := [x, y, z];
    assert a[..0] + a[1..] == [y, z];
  }

  /** The second case: the last of three moves to the front. */
  lemma MoveLastToFirst<T>(x: T, y: T, z: T)
    ensures Move([x, y, z], 2, 0) == [z, x, y]
  {
    var a := [x, y, z];
    assert a[..2] + a[3..] == [x, y];
  }

  /** The third case: the second of four moves one place right. */
  lemma MoveOneRight<T>(x: T, y: T, z: T, w: T)
    ensures Move([x, y, z, w], 1, 2) == [x, z, y, w]
  {
    var a := [x, y, z, w];
    var rest := a[..1] + a[2..];
    assert rest == [x, z, w];
    assert rest[..2] == [x, z] && rest[2..] == [w];
    assert [x, z] + [y] + [w] == [x, z, y, w];
  }

  /**
   * One card: the selection signal it writes, its playback and editing
   * flags, the drop highlight, the instance list the intended reorder
   * changes, and the errors its handlers throw.
   */
  class VolumeCard {
    var selection: seq<int>
    var isPlaying: bool
    var isEditingVol4D: bool
    var dragOver: bool
    var nvArray: seq<Instance>
    var thrown: seq<string>

    constructor (sel: seq<int>, instances: seq<Instance>)
      ensures selection == sel && nvArray == instances
      ensures !isPlaying && !isEditingVol4D && !dragOver && thrown == []
    {
      selection := sel;
      isPlaying := false;
      isEditingVol4D := false;
      dragOver := false;
      nvArray := instances;
      thrown := [];
    }

    /** `selectClick` for the card at `volumeIndex`. */
    method SelectClick(mode: SelectionMode, volumeIndex: int)
      modifies this
      ensures selection == SelectAfterClick(old(selection), mode, volumeIndex)
      ensures isPlaying == old(isPlaying) && nvArray == old(nvArray) && thrown == old(thrown)
    {
      if mode == SingleSelection {
        selection := [volumeIndex];
      } else if mode == MultipleSelection {
        if volumeIndex in selection {
          selection := Without(selection, volumeIndex);
        } else {
          selection := selection + [volumeIndex];
        }
      }
    }

    /** The effect that stops playback once the card is deselected or its frame is being edited. */
    method StopPlaybackEffect(volumeIndex: int)
      modifies this
      ensures isPlaying == (old(isPlaying) && volumeIndex in selection && !isEditingVol4D)
      ensures selection == old(selection) && isEditingVol4D == old(isEditingVol4D)
      ensures nvArray == old(nvArray) && thrown == old(thrown)
    {
      if (volumeIndex !in selection || isEditingVol4D) && isPlaying {
        isPlaying := false;
      }
    }

    /**
     * `handleDrop` as written: the card is given no `reorder` callback, so
     * a drop from another card (or of text that is not a number) calls
     * `undefined` and throws.
     */
    method DropAsWritten(from: Parsed, volumeIndex: int)
      modifies this
      ensures !dragOver && nvArray == old(nvArray) && selection == old(selection)
      ensures thrown == old(thrown) + (if Differs(from, volumeIndex) then ["reorder is not a function"] else [])
    {
      dragOver := false;
      if Differs(from, volumeIndex) {
        thrown := thrown + ["reorder is not a function"];
      }
    }

    /**
     * `handleDrop` as intended: a drop from another card moves that card to
     * this one's position; a drop on itself, or of anything that is not a
     * card's index, leaves the order alone.
     */
    method Drop(from: Parsed, volumeIndex: nat)
      requires volumeIndex < |nvArray|
      modifies this
      ensures !dragOver && selection == old(selection) && thrown == old(thrown)
      ensures from.Num? && 0 <= from.n < |old(nvArray)| ==> nvArray == Move(old(nvArray), from.n, volumeIndex)
      ensures !(from.Num? && 0 <= from.n < |old(nvArray)|) ==> nvArray == old(nvArray)
      ensures multiset(nvArray) == multiset(old(nvArray))
    {
      dragOver := false;
      if from.Num? && 0 <= from.n < |nvArray| && from.n != volumeIndex {
        nvArray := Move(nvArray, from.n, volumeIndex);
      }
    }
  }

  /** Dropping one card on another throws as written, and moves the card as intended. */
  lemma DropOnOtherCard(a: seq<Instance>, from: nat, to: nat)
    requires from < |a| && to < |a| && from != to
    ensures Differs(Num(from), to)
    ensures Move(a, from, to)[to] == a[from]
  {
  }

  /** `is4D`: the first volume exists and has more than one frame. */
  predicate Is4D(nv: Instance)
    ensures Is4D(nv) ==> nv.volumes != []
  {
    |nv.volumes| > 0 && nv.volumes[0].nFrame4D > 1
  }

  /** Only the first volume decides: the volumes after it can be anything. */
  lemma Is4DFirstOnly(nv: Instance, others: seq<Layer>)
    requires nv.volumes != []
    ensures Is4D(nv) <==> Is4D(nv.(volumes := [nv.volumes[0]] + others))
  {
  }
}
