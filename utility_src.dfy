/**
 * The display-name utilities of the Preact viewer: the older
 * `differenceInNames`, whose prefix back-off does not fold case, and
 * `isImageType` over the shorter extension list.
 */
module SrcUtility {
  import opened Common
  import opened NameDiff
  import RU = ReactUtility

  /**
   * The prefix cut moves back over '.' and digits, then over lower-case
   * letters only; the suffix cut moves back over digits, then lower-case
   * letters, reading the character at the cut with a length-based index.
   */
  const Rules := NameDiff.Rules([DigitOrDot, LowerLetter], [Digit, LowerLetter], LengthBased)

  /** The two prefix loops yield the rule's prefix cut. */
  method PrefixCut(names: seq<string>) returns (start: nat)
    requires |names| > 0
    ensures start == StartCut(names, Rules)
  {
    var common := LongestCommonPrefix(names);
    start := SkipBackPrefix(names[0], common, DigitOrDot);
    var first := start;
    start := SkipBackPrefix(names[0], start, LowerLetter);
    assert Rules.prefixRun[1..] == [LowerLetter] && [LowerLetter][1..] == [];
    assert BackOffPrefixAll(names[0], common, Rules.prefixRun)
      == BackOffPrefixAll(names[0], first, [LowerLetter]);
  }

  /** `differenceInNames(names, rec)`. */
  method DifferenceInNames(names: seq<string>, rec: bool) returns (diff: seq<string>)
    ensures diff == Difference(names, Rules, rec)
    decreases rec
  {
    if |names| == 0 {
      return [];
    }
    var start := PrefixCut(names);
    // The suffix loops are the same in both packages.
    var end := RU.SuffixCut(names);
    assert Rules.suffixRun == RU.Rules.suffixRun && Rules.probe == RU.Rules.probe;
    diff := CutAll(names, start, end);
    if rec {
      var folders := DifferenceInNames(Folders(diff), false);
      var files := DifferenceInNames(FileNames(diff), false);
      diff := RewriteJoined(diff, folders, files);
    }
  }

  /** The extensions of this version, in the order they are tried: no NumPy or MINC types. */
  const ImageTypes: seq<string> := [".nii", ".nii.gz", ".dcm", ".mha", ".mhd", ".nhdr", ".nrrd",
    ".mgh", ".mgz", ".v", ".v16", ".vmr"]

  /** `isImageType`: the first listed extension `item` ends with, or none. */
  function IsImageType(item: string): (r: Option<string>)
    ensures r.None? <==> forall i :: 0 <= i < |ImageTypes| ==> !EndsWith(item, ImageTypes[i])
    ensures r.Some? ==> r.value in ImageTypes && EndsWith(item, r.value)
    ensures r.Some? ==> RU.IsImageType(item).Some?
  {
    match FirstEnding(ImageTypes, item)
      case None => None
      case Some(k) =>
        ListedInReact(k);
        Some(ImageTypes[k])
  }

  /** Every extension of this list is also on the React package's longer list. */
  lemma ListedInReact(k: nat)
    requires k < |ImageTypes|
    ensures exists j :: 0 <= j < |RU.ImageTypes| && RU.ImageTypes[j] == ImageTypes[k]
  {
    var at := [0, 1, 2, 3, 4, 5, 6, 7, 8, 11, 12, 13];
    assert RU.ImageTypes[at[k]] == ImageTypes[k];
  }

  /** No listed extension ends in 'c'. */
  lemma NoImageTypeEndsInC()
    ensures forall i :: 0 <= i < |ImageTypes| ==> |ImageTypes[i]| > 0 && ImageTypes[i][|ImageTypes[i]| - 1] != 'c'
  {
    forall i | 0 <= i < |ImageTypes|
      ensures |ImageTypes[i]| > 0 && ImageTypes[i][|ImageTypes[i]| - 1] != 'c'
    {
      var e := ImageTypes[i];
      if i < 6 {
        assert e == [".nii", ".nii.gz", ".dcm", ".mha", ".mhd", ".nhdr"][i];
      } else {
        assert e == [".nrrd", ".mgh", ".mgz", ".v", ".v16", ".vmr"][i - 6];
      }
    }
  }

  /** A MINC file is not an image type here. */
  lemma MincIsNotAnImageType()
    ensures IsImageType("scan.mnc").None?
  {
    var t := "scan.mnc";
    NoImageTypeEndsInC();
    forall i | 0 <= i < |ImageTypes| ensures !EndsWith(t, ImageTypes[i]) {
      if EndsWith(t, ImageTypes[i]) {
        EndsWithLast(t, ImageTypes[i]);
      }
    }
  }
}
