/**
 * The frame navigator of a 4D volume (`Nav4D`): previous / next buttons,
 * an editable frame number, timed playback, and a sync toggle that makes
 * every synced card follow this card's frame.
 *
 * `setFrame4D` belongs to the viewer library; it is modelled by
 * `FrameSet`, which records the call and moves the first volume to the
 * requested frame clamped to the volume's frames.
 */
module Nav4D {
  import opened Common
  import opened Instances
  import VP = VolumePanel

  /** The frame the viewer shows after a request for `f` on a volume of `n` frames. */
  function ClampFrame(f: int, n: nat): (r: nat)
    ensures n > 0 ==> r < n
    ensures 0 <= f < n ==> r == f
    ensures n > 0 && f >= n ==> r == n - 1
    ensures f < 0 ==> r == 0
  {
    if f < 0 || n == 0 then 0 else if f >= n then n - 1 else f
  }

  /** The value of a run of decimal digits. */
  function DigitsValue(d: string): nat
    requires forall i :: 0 <= i < |d| ==> IsDigit(d[i])
    decreases |d|
  {
    if d == [] then 0
    else
      assert IsDigit(d[|d| - 1]);
      DigitsValue(d[..|d| - 1]) * 10 + (d[|d| - 1] as int - '0' as int)
  }

  /** The longest run of digits at the start of `s`. */
  function LeadingDigits(s: string): (r: string)
    ensures |r| <= |s| && r == s[..|r|]
    ensures forall i :: 0 <= i < |r| ==> IsDigit(r[i])
    ensures |r| < |s| ==> !IsDigit(s[|r|])
    decreases |s|
  {
    if s == [] || !IsDigit(s[0]) then "" else [s[0]] + LeadingDigits(s[1..])
  }

  /**
   * `parseInt(s, 10)`: leading whitespace is skipped, then an optional
   * sign, then the longest run of digits gives the number; without a
   * digit the result is NaN.
   */
  function ParseInt(s: string): (r: VP.Parsed)
    decreases |s|
  {
    if s != [] && IsSpace(s[0]) then ParseInt(s[1..])
    else
      var rest := if s != [] && (s[0] == '-' || s[0] == '+') then s[1..] else s;
      var d := LeadingDigits(rest);
      if d == [] then VP.NaN
      else if s[0] == '-' then VP.Num(-(DigitsValue(d) as int))
      else VP.Num(DigitsValue(d))
  }

  /** A run of digits is its own leading run. */
  lemma {:induction false} AllDigitsLead(s: string)
    requires forall i :: 0 <= i < |s| ==> IsDigit(s[i])
    ensures LeadingDigits(s) == s
    decreases |s|
  {
    if s != [] {
      assert forall i :: 0 <= i < |s[1..]| ==> s[1..][i] == s[i + 1];
      AllDigitsLead(s[1..]);
      assert [s[0]] + s[1..] == s;
    }
  }

  /** The digits of `n` read back as `n`. */
  lemma {:induction false} DigitsValueOfDecimal(n: nat)
    ensures DigitsValue(DecimalString(n)) == n
    decreases n
  {
    if n >= 10 {
      var d := DecimalString(n);
      var front := DecimalString(n / 10);
      assert d[..|d| - 1] == front;
      DigitsValueOfDecimal(n / 10);
    }
  }

  /**
   * `parseInt` reads back the text a frame number is shown as: editing a
   * frame and pressing Enter without a change asks for the same frame.
   */
  lemma ParseDecimal(n: nat)
    ensures ParseInt(DecimalString(n)) == VP.Num(n)
  {
    var d := DecimalString(n);
    assert !IsSpace(d[0]) && d[0] != '-' && d[0] != '+';
    AllDigitsLead(d);
    DigitsValueOfDecimal(n);
  }

  /** Leading blanks and trailing text are ignored, a sign is read, and text without a digit is NaN. */
  lemma ParseIntExamples()
    ensures ParseInt(" 7x") == VP.Num(7)
    ensures ParseInt("-2") == VP.Num(-2)
    ensures ParseInt("x7") == VP.NaN
    ensures ParseInt("") == VP.NaN
  {
    var a := " 7x";
    assert a[1..] == "7x" && LeadingDigits("7x") == "7";
    assert DigitsValue("7") == 7;
    var b := "-2";
    assert b[1..] == "2" && LeadingDigits("2") == "2";
    assert DigitsValue("2") == 2;
  }

  /** `nv.setFrame4D(nv.volumes[0].id, f)` on an instance with a volume. */
  function FrameSet(nv: Instance, f: int): (r: Instance)
    requires |nv.volumes| > 0
    ensures |r.volumes| == |nv.volumes| && r.meshes == nv.meshes && r.isLoaded == nv.isLoaded
    ensures r.calls == nv.calls + [SetFrame4D(nv.volumes[0].id, f)]
    ensures r.volumes[0] == nv.volumes[0].(frame4D := ClampFrame(f, nv.volumes[0].nFrame4D))
    ensures forall k :: 1 <= k < |r.volumes| ==> r.volumes[k] == nv.volumes[k]
  {
    var v := nv.volumes[0];
    nv.(volumes := nv.volumes[0 := v.(frame4D := ClampFrame(f, v.nFrame4D))],
        calls := nv.calls + [SetFrame4D(v.id, f)])
  }

  /** The frame an instance shows, 0 without a volume. */
  function Frame(nv: Instance): nat
  {
    if |nv.volumes| > 0 then nv.volumes[0].frame4D else 0
  }

  /**
   * The guard of `syncOtherVolumes` for one other card: a 4D volume that
   * has the target frame and does not already show it.
   */
  predicate Follows(nv: Instance, target: nat)
    ensures Follows(nv, target) ==> VP.Is4D(nv) && Frame(nv) != target
  {
    && |nv.volumes| > 0
    && nv.volumes[0].nFrame4D > 1
    && target < nv.volumes[0].nFrame4D
    && nv.volumes[0].frame4D != target
  }

  /** One card after `syncOtherVolumes(target)` started from card `self`. */
  function SyncedAt(a: seq<Instance>, synced: set<int>, self: int, target: nat, i: nat): (r: Instance)
    requires i < |a|
    ensures Follows(a[i], target) && i in synced && i != self ==> Frame(r) == target
    ensures !(Follows(a[i], target) && i in synced && i != self) ==> r == a[i]
  {
    if i in synced && i != self && Follows(a[i], target) then FrameSet(a[i], target) else a[i]
  }

  /** The whole instance list after `syncOtherVolumes(target)` started from a synced card `self`. */
  function Synced(a: seq<Instance>, synced: set<int>, self: int, target: nat): (r: seq<Instance>)
    ensures |r| == |a|
    ensures forall i :: 0 <= i < |a| ==> r[i] == SyncedAt(a, synced, self, target, i)
  {
    seq(|a|, i requires 0 <= i < |a| => SyncedAt(a, synced, self, target, i))
  }

  /**
   * After a sync, every synced 4D card with enough frames shows the target,
   * the starting card and every unsynced card are untouched, and a second
   * sync to the same frame changes nothing.
   */
  lemma SyncedFollows(a: seq<Instance>, synced: set<int>, self: int, target: nat)
    ensures forall i :: (0 <= i < |a| && i in synced && i != self && |a[i].volumes| > 0
                         && 1 < a[i].volumes[0].nFrame4D && target < a[i].volumes[0].nFrame4D)
                        ==> Frame(Synced(a, synced, self, target)[i]) == target
    ensures forall i :: 0 <= i < |a| && (i !in synced || i == self) ==> Synced(a, synced, self, target)[i] == a[i]
    ensures Synced(Synced(a, synced, self, target), synced, self, target) == Synced(a, synced, self, target)
  {
    var b := Synced(a, synced, self, target);
    forall i | 0 <= i < |a| && i in synced && i != self
      ensures !Follows(b[i], target)
    {
      if i in synced && i != self && Follows(a[i], target) {
        assert Frame(b[i]) == target;
      }
    }
  }

  /** The number of cards whose first volume has more than one frame. */
  function Count4D(a: seq<Instance>): (r: nat)
    ensures r <= |a|
  {
    if |a| == 0 then 0 else (if VP.Is4D(a[0]) then 1 else 0) + Count4D(a[1..])
  }

  /** The sync button shows once two cards hold 4D volumes. */
  predicate ShowSync(a: seq<Instance>)
    ensures ShowSync(a) ==> |a| >= 2
  {
    Count4D(a) > 1
  }

  /** Some card holds a 4D volume exactly when the count is positive. */
  lemma {:induction false} Count4DPositive(a: seq<Instance>)
    ensures Count4D(a) > 0 <==> exists i :: 0 <= i < |a| && VP.Is4D(a[i])
    decreases |a|
  {
    if |a| > 0 {
      Count4DPositive(a[1..]);
      if exists i :: 0 <= i < |a[1..]| && VP.Is4D(a[1..][i]) {
        var i :| 0 <= i < |a[1..]| && VP.Is4D(a[1..][i]);
        assert VP.Is4D(a[i + 1]);
      }
      if exists i :: 0 <= i < |a| && VP.Is4D(a[i]) {
        var i :| 0 <= i < |a| && VP.Is4D(a[i]);
        if i > 0 {
          assert VP.Is4D(a[1..][i - 1]);
        }
      }
    }
  }

  /** The sync button shows exactly when two different cards hold 4D volumes. */
  lemma {:induction false} ShowSyncIff(a: seq<Instance>)
    ensures ShowSync(a) <==> exists i, j :: 0 <= i < j < |a| && VP.Is4D(a[i]) && VP.Is4D(a[j])
    decreases |a|
  {
    if |a| > 0 {
      var t := a[1..];
      ShowSyncIff(t);
      Count4DPositive(t);
      if exists i, j :: 0 <= i < j < |a| && VP.Is4D(a[i]) && VP.Is4D(a[j]) {
        var i, j :| 0 <= i < j < |a| && VP.Is4D(a[i]) && VP.Is4D(a[j]);
        assert VP.Is4D(t[j - 1]);
        if i > 0 {
          assert VP.Is4D(t[i - 1]);
        }
      }
      if VP.Is4D(a[0]) && Count4D(t) > 0 {
        var j :| 0 <= j < |t| && VP.Is4D(t[j]);
        assert VP.Is4D(a[j + 1]);
      }
      if Count4D(t) > 1 {
        var i, j :| 0 <= i < j < |t| && VP.Is4D(t[i]) && VP.Is4D(t[j]);
        assert VP.Is4D(a[i + 1]) && VP.Is4D(a[j + 1]);
      }
    }
  }

  /** The key of a `keydown` on the frame input, as far as the handler tells keys apart. */
  datatype Key = Enter | Escape | OtherKey

  /**
   * One card's navigator: the instance list (this card's instance is at
   * `volumeIndex`), the shared `vol4D`, `isPlaying`, `isEditingVol4D` and
   * `syncedIndices` signals, the input's text, whether a playback interval
   * is running, and the errors its handlers threw.
   */
  class Nav4DCard {
    const volumeIndex: nat
    var nvArray: seq<Instance>
    var vol4D: nat
    var isPlaying: bool
    var isEditing: bool
    var input: string
    var synced: set<int>
    var interval: bool
    var thrown: seq<string>

    predicate Valid()
      reads this
    {
      volumeIndex < |nvArray|
    }

    constructor (instances: seq<Instance>, index: nat, frame: nat, syncedIndices: set<int>)
      requires index < |instances|
      ensures Valid() && volumeIndex == index && nvArray == instances
      ensures vol4D == frame && synced == syncedIndices
      ensures !isPlaying && !isEditing && input == "" && !interval && thrown == []
    {
      volumeIndex := index;
      nvArray := instances;
      vol4D := frame;
      isPlaying := false;
      isEditing := false;
      input := "";
      synced := syncedIndices;
      interval := false;
      thrown := [];
    }

    /** This card's instance. */
    function Nv(): Instance
      requires Valid()
      reads this
    {
      nvArray[volumeIndex]
    }

    /**
     * `nextVolume` (`delta` 1) and `prevVolume` (`delta` -1): ask the viewer
     * for the neighbouring frame and show the frame it moved to.
     */
    method Step(delta: int)
      requires Valid() && (delta == 1 || delta == -1)
      modifies this`nvArray, this`vol4D, this`thrown
      ensures Valid()
      ensures |old(Nv()).volumes| == 0 ==> nvArray == old(nvArray) && vol4D == old(vol4D) && thrown == old(thrown) + ["Cannot read properties of undefined (reading 'frame4D')"]
      ensures |old(Nv()).volumes| > 0 ==> var nv' := FrameSet(old(Nv()), old(Nv()).volumes[0].frame4D + delta);
        nvArray == old(nvArray)[volumeIndex := nv'] && vol4D == Frame(nv') && thrown == old(thrown)
    {
      var nv := nvArray[volumeIndex];
      if |nv.volumes| == 0 {
        thrown := thrown + ["Cannot read properties of undefined (reading 'frame4D')"];
      } else {
        var currentVol := nv.volumes[0].frame4D;
        nv := FrameSet(nv, currentVol + delta);
        nvArray := nvArray[volumeIndex := nv];
        vol4D := nv.volumes[0].frame4D;
      }
    }

    /** `setVol4D`: a request clamped to the volume's frames; nothing without a frame count. */
    method SetVol4D(value: int)
      requires Valid()
      modifies this`nvArray, this`vol4D
      ensures Valid()
      ensures var nv := old(Nv());
        if |nv.volumes| == 0 || nv.volumes[0].nFrame4D == 0 then nvArray == old(nvArray) && vol4D == old(vol4D)
        else var f := ClampFrame(value, nv.volumes[0].nFrame4D);
          && nvArray == old(nvArray)[volumeIndex := FrameSet(nv, f)]
          && vol4D == f
    {
      var nv := nvArray[volumeIndex];
      if |nv.volumes| == 0 || nv.volumes[0].nFrame4D == 0 {
        return;
      }
      var maxFrame := nv.volumes[0].nFrame4D - 1;
      var clamped := if value > maxFrame then maxFrame else value;
      clamped := if clamped < 0 then 0 else clamped;
      nv := FrameSet(nv, clamped);
      nvArray := nvArray[volumeIndex := nv];
      vol4D := nv.volumes[0].frame4D;
    }

    /** `handleVol4DClick`: editing starts from the frame shown. */
    method StartEditing()
      modifies this`isEditing, this`input
      ensures isEditing && input == DecimalString(vol4D)
    {
      isEditing := true;
      input := DecimalString(vol4D);
    }

    /** `handleVol4DChange`: the input holds the typed text. */
    method Type(text: string)
      modifies this`input
      ensures input == text
    {
      input := text;
    }

    /**
     * `handleVol4DKeyDown`: Enter commits `parseInt(input, 10)` (text that
     * does not parse is dropped), Escape restores the shown frame; both end
     * editing and prevent the default.
     */
    method KeyDown(key: Key) returns (defaultPrevented: bool)
      requires Valid()
      modifies this`nvArray, this`vol4D, this`isEditing, this`input
      ensures Valid()
      ensures defaultPrevented <==> key != OtherKey
      ensures key == OtherKey ==> nvArray == old(nvArray) && vol4D == old(vol4D) && isEditing == old(isEditing) && input == old(input)
      ensures key != OtherKey ==> !isEditing
      ensures key == Escape ==> nvArray == old(nvArray) && vol4D == old(vol4D) && input == DecimalString(vol4D)
      ensures key == Enter ==> input == old(input)
      ensures key == Enter && ParseInt(old(input)).NaN? ==> nvArray == old(nvArray) && vol4D == old(vol4D)
      ensures key == Enter && ParseInt(old(input)).Num? && |old(Nv()).volumes| > 0 && old(Nv()).volumes[0].nFrame4D > 0
        ==> vol4D == ClampFrame(ParseInt(old(input)).n, old(Nv()).volumes[0].nFrame4D)
    {
      defaultPrevented := false;
      if key == Enter {
        var parsed := ParseInt(input);
        defaultPrevented := true;
        if parsed.Num? {
          SetVol4D(parsed.n);
        }
        isEditing := false;
      } else if key == Escape {
        defaultPrevented := true;
        input := DecimalString(vol4D);
        isEditing := false;
      }
    }

    /** `commitVol4DChange`, on blur: as Enter. */
    method Commit()
      requires Valid()
      modifies this`nvArray, this`vol4D, this`isEditing
      ensures Valid() && !isEditing
      ensures ParseInt(input).NaN? ==> nvArray == old(nvArray) && vol4D == old(vol4D)
      ensures ParseInt(input).Num? && |old(Nv()).volumes| > 0 && old(Nv()).volumes[0].nFrame4D > 0
        ==> vol4D == ClampFrame(ParseInt(input).n, old(Nv()).volumes[0].nFrame4D)
    {
      var parsed := ParseInt(input);
      if parsed.Num? {
        SetVol4D(parsed.n);
      }
      isEditing := false;
    }

    /** `togglePlay`. */
    method TogglePlay()
      modifies this`isPlaying
      ensures isPlaying == !old(isPlaying)
    {
      isPlaying := !isPlaying;
    }

    /** The effect on `isPlaying`: a stopped card clears its interval, a playing one starts it. */
    method PlayingEffect()
      modifies this`interval
      ensures interval == isPlaying
    {
      if !isPlaying && interval {
        interval := false;
      } else if isPlaying && !interval {
        interval := true;
      }
    }

    /** The unmount cleanup: the interval is cleared. */
    method Unmount()
      modifies this`interval
      ensures !interval
    {
      interval := false;
    }

    /**
     * One playback tick: the frame advances by one and wraps to 0 after
     * the last; without a volume playback stops, and without a frame count
     * the tick does nothing.
     */
    method Tick()
      requires Valid()
      modifies this`nvArray, this`vol4D, this`isPlaying, this`interval
      ensures Valid()
      ensures |old(Nv()).volumes| == 0 ==> !isPlaying && !interval && nvArray == old(nvArray) && vol4D == old(vol4D)
      ensures |old(Nv()).volumes| > 0 && old(Nv()).volumes[0].nFrame4D == 0 ==>
        nvArray == old(nvArray) && vol4D == old(vol4D) && isPlaying == old(isPlaying) && interval == old(interval)
      ensures |old(Nv()).volumes| > 0 && old(Nv()).volumes[0].nFrame4D > 0 ==>
        var v := old(Nv()).volumes[0];
        && nvArray == old(nvArray)[volumeIndex := FrameSet(old(Nv()), (v.frame4D + 1) % v.nFrame4D)]
        && vol4D == ClampFrame((v.frame4D + 1) % v.nFrame4D, v.nFrame4D)
        && isPlaying == old(isPlaying) && interval == old(interval)
    {
      var nv := nvArray[volumeIndex];
      if |nv.volumes| == 0 {
        interval := false;
        isPlaying := false;
        return;
      }
      var n := nv.volumes[0].nFrame4D;
      if n == 0 {
        return;
      }
      var next := (nv.volumes[0].frame4D + 1) % n;
      nv := FrameSet(nv, next);
      nvArray := nvArray[volumeIndex := nv];
      vol4D := nv.volumes[0].frame4D;
    }

    /** `toggleSync`: this card joins or leaves the synced set. */
    method ToggleSync()
      modifies this`synced
      ensures volumeIndex in synced <==> volumeIndex !in old(synced)
      ensures forall i :: i != volumeIndex ==> (i in synced <==> i in old(synced))
    {
      if volumeIndex in synced {
        synced := synced - {volumeIndex};
      } else {
        synced := synced + {volumeIndex};
      }
    }

    /**
     * `syncOtherVolumes(target)`: when this card is synced, every other
     * synced card whose 4D volume has the target frame is moved to it.
     */
    method SyncOthers(target: nat)
      requires Valid()
      modifies this`nvArray
      ensures Valid()
      ensures volumeIndex !in synced ==> nvArray == old(nvArray)
      ensures volumeIndex in synced ==> nvArray == Synced(old(nvArray), synced, volumeIndex, target)
    {
      if volumeIndex !in synced {
        return;
      }
      var rest := synced;
      ghost var a := nvArray;
      while rest != {}
        invariant rest <= synced && |nvArray| == |a|
        invariant forall i :: 0 <= i < |a| ==>
          nvArray[i] == (if i in rest then a[i] else SyncedAt(a, synced, volumeIndex, target, i))
        decreases rest
      {
        if forall y :: y !in rest {
          assert false;
        }
        var idx :| idx in rest;
        rest := rest - {idx};
        if idx != volumeIndex && 0 <= idx < |nvArray| && Follows(nvArray[idx], target) {
          nvArray := nvArray[idx := FrameSet(nvArray[idx], target)];
        }
      }
    }
  }

  /** Playback visits every frame in turn: a frame in range goes to the next, the last back to 0. */
  lemma PlaybackCycles(f: nat, n: nat)
    requires f < n
    ensures f + 1 < n ==> ClampFrame((f + 1) % n, n) == f + 1
    ensures f + 1 == n ==> ClampFrame((f + 1) % n, n) == 0
  {
  }

  /**
   * The first sync scenario: two 4D cards at frame 0, both synced; "next"
   * on the first and the sync it triggers leave both at frame 1. With only
   * the first synced, the second stays at frame 0.
   */
  lemma TwoCardSync(a: seq<Instance>)
    requires |a| == 2 && |a[0].volumes| > 0 && |a[1].volumes| > 0
    requires a[0].volumes[0].nFrame4D > 1 && a[1].volumes[0].nFrame4D > 1
    requires a[0].volumes[0].frame4D == 0 && a[1].volumes[0].frame4D == 0
    ensures var b := a[0 := FrameSet(a[0], 0 + 1)];
      && Frame(b[0]) == 1
      && Frame(Synced(b, {0, 1}, 0, 1)[0]) == 1 && Frame(Synced(b, {0, 1}, 0, 1)[1]) == 1
      && Frame(Synced(b, {0}, 0, 1)[1]) == 0
  {
    var b := a[0 := FrameSet(a[0], 0 + 1)];
    assert Follows(b[1], 1);
    assert SyncedAt(b, {0}, 0, 1, 1) == b[1];
  }
}
