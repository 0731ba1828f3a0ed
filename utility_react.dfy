/**
 * The display-name utilities of the React viewer: `differenceInNames` with
 * its folder/file recursion, `getNames` with its duplicate handling, and
 * `isImageType`.
 */
module ReactUtility {
  import opened Common
  import opened NameDiff
  import opened ViewerSlots

  /**
   * The prefix cut moves back over '.' and digits, then over letters of
   * either case; the suffix cut moves back over digits, then over lower-case
   * letters, reading the character at the cut with a length-based index.
   */
  const Rules := NameDiff.Rules([DigitOrDot, FoldedLetter], [Digit, LowerLetter], LengthBased)

  /** The two prefix loops yield the rule's prefix cut. */
  method PrefixCut(names: seq<string>) returns (start: nat)
    requires |names| > 0
    ensures start == StartCut(names, Rules)
  {
    var common := LongestCommonPrefix(names);
    start := SkipBackPrefix(names[0], common, DigitOrDot);
    var first := start;
    start := SkipBackPrefix(names[0], start, FoldedLetter);
    assert Rules.prefixRun[1..] == [FoldedLetter] && [FoldedLetter][1..] == [];
    assert BackOffPrefixAll(names[0], common, Rules.prefixRun)
      == BackOffPrefixAll(names[0], first, [FoldedLetter]);
  }

  /** The two suffix loops yield the rule's suffix cut. */
  method SuffixCut(names: seq<string>) returns (end: nat)
    requires |names| > 0
    ensures end == EndCut(names, Rules)
  {
    var common := LongestCommonSuffix(names);
    end := SkipBackSuffix(names[0], common, Digit, LengthBased);
    var first := end;
    end := SkipBackSuffix(names[0], end, LowerLetter, LengthBased);
    assert Rules.suffixRun[1..] == [LowerLetter] && [LowerLetter][1..] == [];
    assert BackOffSuffixAll(names[0], common, Rules.suffixRun, LengthBased)
      == BackOffSuffixAll(names[0], first, [LowerLetter], LengthBased);
  }

  /** One pass: the two cuts and the `map` that applies them. */
  method Pass(names: seq<string>) returns (diff: seq<string>)
    requires |names| > 0
    ensures diff == Strip(names, Rules)
  {
    var start := PrefixCut(names);
    var end := SuffixCut(names);
    diff := CutAll(names, start, end);
  }

  /** `differenceInNames(names, rec)`. */
  method DifferenceInNames(names: seq<string>, rec: bool) returns (diff: seq<string>)
    ensures diff == Difference(names, Rules, rec)
    decreases rec
  {
    if |names| == 0 {
      return [];
    }
    diff := Pass(names);
    if rec {
      var folders := DifferenceInNames(Folders(diff), false);
      var files := DifferenceInNames(FileNames(diff), false);
      diff := RewriteJoined(diff, folders, files);
    }
  }

  /** `differenceInNames` returns one name per input and nothing for nothing. */
  lemma DifferenceInNamesLength(names: seq<string>, rec: bool)
    ensures |Difference(names, Rules, rec)| == |names|
    ensures names == [] ==> Difference(names, Rules, rec) == []
  {
  }

  /** The name a slot is known by: its first volume, else its first mesh, else ''. */
  function BaseName(s: Slot): (r: string)
    ensures s.volumes == [] && s.meshes == [] ==> r == ""
    ensures r != "" ==> (|s.volumes| > 0 && r == s.volumes[0].name) || (|s.meshes| > 0 && r == s.meshes[0].name)
  {
    if |s.volumes| > 0 then s.volumes[0].name
    else if |s.meshes| > 0 then s.meshes[0].name
    else ""
  }

  function BaseNames(items: seq<Slot>): (r: seq<string>)
    ensures |r| == |items| && forall i :: 0 <= i < |items| ==> r[i] == BaseName(items[i])
  {
    seq(|items|, i requires 0 <= i < |items| => BaseName(items[i]))
  }

  /**
   * The name shown for a slot whose base name is shared with another slot:
   * its last volume when it has overlays, else its base name for a volume;
   * for a mesh the first mesh's last layer when that layer is named, else
   * the base name; '' for an empty slot.
   */
  function DuplicateName(s: Slot): string
  {
    if |s.volumes| > 1 then s.volumes[|s.volumes| - 1].name
    else if |s.volumes| > 0 then BaseName(s)
    else if |s.meshes| > 0 then
      var layers := s.meshes[0].layers;
      if |layers| > 0 && layers[|layers| - 1].uri != "" then layers[|layers| - 1].uri else BaseName(s)
    else ""
  }

  /** The name shown for a slot whose base name occurs `count` times. */
  function PickName(s: Slot, count: nat): (r: string)
    ensures count <= 1 ==> r == BaseName(s)
    ensures |s.volumes| == 1 ==> r == BaseName(s)
    ensures |s.volumes| > 1 ==> r in {BaseName(s), s.volumes[|s.volumes| - 1].name}
  {
    if count > 1 then DuplicateName(s) else BaseName(s)
  }

  /** The specification of `getNames`: each slot's name chosen by how often its base name occurs. */
  function Names(items: seq<Slot>): (r: seq<string>)
    ensures |r| == |items|
  {
    var base := BaseNames(items);
    seq(|items|, i requires 0 <= i < |items| => PickName(items[i], multiset(base)[base[i]]))
  }

  /** A base name no other slot has is shown unchanged; so is every name when all base names differ. */
  lemma UniqueNamesKept(items: seq<Slot>)
    ensures forall i :: 0 <= i < |items| && multiset(BaseNames(items))[BaseName(items[i])] == 1 ==>
      Names(items)[i] == BaseName(items[i])
  {
  }

  /** The `forEach` that counts how often each base name occurs. */
  method CountNames(base: seq<string>) returns (count: map<string, nat>)
    ensures forall x :: x in count <==> x in base
    ensures forall x :: x in count ==> count[x] == multiset(base)[x]
  {
    count := map[];
    var i := 0;
    while i < |base|
      invariant 0 <= i <= |base|
      invariant forall x :: x in count <==> x in base[..i]
      invariant forall x :: x in count ==> count[x] == multiset(base[..i])[x]
    {
      assert base[..i + 1] == base[..i] + [base[i]];
      count := count[base[i] := (if base[i] in count then count[base[i]] else 0) + 1];
      i := i + 1;
    }
    assert base[..i] == base;
  }

  /** `getNames`: count every base name in a map, then pick each slot's name by its count. */
  method GetNames(items: seq<Slot>) returns (names: seq<string>)
    ensures names == Names(items)
  {
    var base := BaseNames(items);
    var count := CountNames(base);
    names := [];
    var i := 0;
    while i < |items|
      invariant 0 <= i <= |items| && |names| == i
      invariant forall j :: 0 <= j < i ==> names[j] == PickName(items[j], multiset(base)[base[j]])
    {
      assert base[i] in base;
      names := names + [PickName(items[i], count[base[i]])];
      i := i + 1;
    }
  }

  /** The extensions the viewer page opens as images, in the order they are tried. */
  const ImageTypes: seq<string> := [".nii", ".nii.gz", ".dcm", ".mha", ".mhd", ".nhdr", ".nrrd",
    ".mgh", ".mgz", ".npy", ".npz", ".v", ".v16", ".vmr", ".mnc", ".mnc.gz"]

  /** `isImageType`: the first listed extension `item` ends with (case-sensitive), or none. */
  function IsImageType(item: string): (r: Option<string>)
    ensures r.None? <==> forall i :: 0 <= i < |ImageTypes| ==> !EndsWith(item, ImageTypes[i])
    ensures r.Some? ==> r.value in ImageTypes && EndsWith(item, r.value)
  {
    match FirstEnding(ImageTypes, item)
      case None => None
      case Some(k) => Some(ImageTypes[k])
  }

  /** A compressed NIfTI name matches '.nii.gz' ('.nii' is listed first but does not end it); a text file matches nothing. */
  lemma IsImageTypeExamples()
    ensures IsImageType("brain.nii.gz") == Some(".nii.gz")
    ensures IsImageType("notes.txt").None?
  {
    var s := "brain.nii.gz";
    assert s[|s| - |".nii.gz"|..] == ".nii.gz";
    if EndsWith(s, ImageTypes[0]) {
      EndsWithLast(s, ImageTypes[0]);
    }
    FirstEndingAt(ImageTypes, s, 1);
    var t := "notes.txt";
    NoImageTypeEndsInT();
    forall i | 0 <= i < |ImageTypes| ensures !EndsWith(t, ImageTypes[i]) {
      if EndsWith(t, ImageTypes[i]) {
        EndsWithLast(t, ImageTypes[i]);
      }
    }
  }

  /** No listed extension ends in 't'. */
  lemma NoImageTypeEndsInT()
    ensures forall i :: 0 <= i < |ImageTypes| ==> |ImageTypes[i]| > 0 && ImageTypes[i][|ImageTypes[i]| - 1] != 't'
  {
    forall i | 0 <= i < |ImageTypes|
      ensures |ImageTypes[i]| > 0 && ImageTypes[i][|ImageTypes[i]| - 1] != 't'
    {
      var e := ImageTypes[i];
      if i < 8 {
        assert e == [".nii", ".nii.gz", ".dcm", ".mha", ".mhd", ".nhdr", ".nrrd", ".mgh"][i];
      } else {
        assert e == [".mgz", ".npy", ".npz", ".v", ".v16", ".vmr", ".mnc", ".mnc.gz"][i - 8];
      }
    }
  }

  /** A name without '/' has no folder part and is its own file part. */
  lemma NoFolder(s: string)
    requires '/' !in s
    ensures Folder(s) == "" && FileName(s) == s
  {
    SplitWithout(s, '/');
  }

  /** One pass with given cuts. */
  lemma PassWith(names: seq<string>, start: nat, end: nat)
    requires |names| > 0 && StartCut(names, Rules) == start && EndCut(names, Rules) == end
    ensures Difference(names, Rules, false) == Cut(names, start, end)
  {
  }

  lemma TwoTestsStart()
    ensures StartCut(["test1", "test2"], Rules) == 0
  {
    var n := ["test1", "test2"];
    assert MinLen(n) == 5;
    assert SameStart(n[1], n[0], 4) by { assert n[1][..4] == n[0][..4]; }
    assert !SameStart(n[1], n[0], 5) by { assert Prefix(n[1], 5)[4] != Prefix(n[0], 5)[4]; }
    CommonPrefixLenIs(n, 5, 4);
    assert BackOffPrefix(n[0], 4, DigitOrDot) == 4;
  }

  lemma TwoTestsEnd()
    ensures EndCut(["test1", "test2"], Rules) == 0
  {
    var n := ["test1", "test2"];
    assert MinLen(n) == 5;
    assert !SameEnd(n[1], n[0], 1) by { assert Suffix(n[1], 1)[0] != Suffix(n[0], 1)[0]; }
    CommonSuffixLenIs(n, 5, 0);
  }

  /** Two names that differ in their last digit after shared letters are kept whole. */
  lemma PassTwoTests()
    ensures Difference(["test1", "test2"], Rules, false) == ["test1", "test2"]
  {
    var n := ["test1", "test2"];
    TwoTestsStart();
    TwoTestsEnd();
    PassWith(n, 0, 0);
    CutNothing(n);
  }

  /** Folder parts that are all empty stay empty. */
  lemma PassEmptyFolders()
    ensures Difference(["", ""], Rules, false) == ["", ""]
  {
    PassWith(["", ""], 0, 0);
    CutNothing(["", ""]);
  }

  lemma TestsHaveNoFolders()
    ensures Folders(["test1", "test2"]) == ["", ""]
    ensures FileNames(["test1", "test2"]) == ["test1", "test2"]
  {
    NoFolder("test1");
    NoFolder("test2");
  }

  lemma JoinTests()
    ensures JoinAll(["", ""], ["test1", "test2"]) == ["test1", "test2"]
  {
    var r := JoinAll(["", ""], ["test1", "test2"]);
    assert r[0] == "test1" && r[1] == "test2";
  }

  /** A pass whose names have no '/' leaves nothing for the folders, so the recursion returns the file differences. */
  lemma RecursionWithoutFolders(names: seq<string>)
    requires |names| > 0 && Strip(names, Rules) == ["test1", "test2"]
    ensures Difference(names, Rules, true) == ["test1", "test2"]
  {
    TestsHaveNoFolders();
    PassEmptyFolders();
    PassTwoTests();
    JoinTests();
  }

  lemma QsmStart()
    ensures StartCut(["qsm_test1", "qsm_test2"], Rules) == 4
  {
    var n := ["qsm_test1", "qsm_test2"];
    assert MinLen(n) == 9;
    assert SameStart(n[1], n[0], 8) by { assert n[1][..8] == n[0][..8]; }
    assert !SameStart(n[1], n[0], 9) by { assert Prefix(n[1], 9)[8] != Prefix(n[0], 9)[8]; }
    CommonPrefixLenIs(n, 9, 8);
    assert BackOffPrefix(n[0], 8, DigitOrDot) == 8;
    assert BackOffPrefix(n[0], 8, FoldedLetter) == 4;
  }

  lemma QsmEnd()
    ensures EndCut(["qsm_test1", "qsm_test2"], Rules) == 0
  {
    var n := ["qsm_test1", "qsm_test2"];
    assert MinLen(n) == 9;
    assert !SameEnd(n[1], n[0], 1) by { assert Suffix(n[1], 1)[0] != Suffix(n[0], 1)[0]; }
    CommonSuffixLenIs(n, 9, 0);
  }

  lemma NiiStart()
    ensures StartCut(["test1.nii", "test2.nii"], Rules) == 0
  {
    var n := ["test1.nii", "test2.nii"];
    assert MinLen(n) == 9;
    assert SameStart(n[1], n[0], 4) by { assert n[1][..4] == n[0][..4]; }
    assert !SameStart(n[1], n[0], 5) by { assert Prefix(n[1], 5)[4] != Prefix(n[0], 5)[4]; }
    CommonPrefixLenIs(n, 9, 4);
    assert BackOffPrefix(n[0], 4, DigitOrDot) == 4;
  }

  lemma NiiEnd()
    ensures EndCut(["test1.nii", "test2.nii"], Rules) == 4
  {
    var n := ["test1.nii", "test2.nii"];
    assert MinLen(n) == 9;
    assert SameEnd(n[1], n[0], 4) by { assert Suffix(n[1], 4) == Suffix(n[0], 4); }
    assert !SameEnd(n[1], n[0], 5) by { assert Suffix(n[1], 5)[0] != Suffix(n[0], 5)[0]; }
    CommonSuffixLenIs(n, 9, 4);
    assert BackOffSuffix(n[0], 4, Digit, LengthBased) == 4;
    assert BackOffSuffix(n[0], 4, LowerLetter, LengthBased) == 4;
  }

  lemma QsmStrip(n: seq<string>)
    requires n == ["qsm_test1", "qsm_test2"]
    ensures Strip(n, Rules) == Cut(n, 4, 0)
  {
    QsmStart();
    QsmEnd();
  }

  lemma QsmCut(n: seq<string>)
    requires n == ["qsm_test1", "qsm_test2"]
    ensures Cut(n, 4, 0) == ["test1", "test2"]
  {
    var c := Cut(n, 4, 0);
    assert c[0] == "test1" && c[1] == "test2";
  }

  /** The test suite's example with a shared prefix of letters and '_': only the differing part stays. */
  lemma TestExampleSharedPrefix(n: seq<string>)
    requires n == ["qsm_test1", "qsm_test2"]
    ensures Difference(n, Rules, true) == ["test1", "test2"]
  {
    QsmStrip(n);
    QsmCut(n);
    RecursionWithoutFolders(n);
  }

  lemma NiiStrip(n: seq<string>)
    requires n == ["test1.nii", "test2.nii"]
    ensures Strip(n, Rules) == Cut(n, 0, 4)
  {
    NiiStart();
    NiiEnd();
  }

  lemma NiiCut(n: seq<string>)
    requires n == ["test1.nii", "test2.nii"]
    ensures Cut(n, 0, 4) == ["test1", "test2"]
  {
    var c := Cut(n, 0, 4);
    assert c[0] == "test1" && c[1] == "test2";
  }

  /** The test suite's example with a shared extension: the extension is dropped and the digits stay. */
  lemma TestExampleSharedExtension(n: seq<string>)
    requires n == ["test1.nii", "test2.nii"]
    ensures Difference(n, Rules, true) == ["test1", "test2"]
  {
    NiiStrip(n);
    NiiCut(n);
    RecursionWithoutFolders(n);
  }
}
