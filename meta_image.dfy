/**
 * The minimal MetaImage (ITK MetaIO) header that the canvas components
 * write in front of a headerless `.raw` volume (`getMinimalHeaderMHA`),
 * once the matrix-size dialog has answered.
 */
module MetaImage {
  import opened Common

  /** The matrix size the dialog offers. */
  const DefaultMatrixSize := "64 64 39 float"

  /**
   * `getMinimalHeaderMHA` once the dialog has answered `matrixSize`: no
   * header for an empty answer; otherwise a MetaImage header whose NDims
   * is the number of space-separated tokens less one and whose element type
   * is the last token upper-cased.
   */
  function MinimalHeaderMHA(matrixSize: string): (r: Option<string>)
    ensures r.None? <==> matrixSize == ""
  {
    if matrixSize == "" then None
    else
      var tokens := Split(matrixSize, ' ');
      Some(HeaderText(DecimalString(|tokens| - 1), matrixSize, Upper(tokens[|tokens| - 1])))
  }

  /** The header's five lines: object type, dimension count, sizes, element type, data file. */
  function HeaderFields(dims: string, size: string, elementType: string): seq<string>
  {
    ["ObjectType = Image", "NDims = " + dims, "DimSize = " + size, "ElementType = MET_" + elementType,
     "ElementDataFile = image.raw"]
  }

  function HeaderText(dims: string, size: string, elementType: string): string
  {
    Join(HeaderFields(dims, size, elementType), "\n")
  }

  /** Fields without line breaks come back line by line. */
  lemma FieldLines(dims: string, size: string, elementType: string)
    requires '\n' !in dims && '\n' !in size && '\n' !in elementType
    ensures Split(HeaderText(dims, size, elementType), '\n') == HeaderFields(dims, size, elementType)
  {
    var lines := HeaderFields(dims, size, elementType);
    assert forall i :: 0 <= i < |lines| ==> '\n' !in lines[i];
    SplitJoin(lines, '\n');
  }

  lemma DigitsOnOneLine(n: nat)
    ensures '\n' !in DecimalString(n)
  {
  }

  lemma LastTokenOnOneLine(matrixSize: string)
    requires '\n' !in matrixSize
    ensures var tokens := Split(matrixSize, ' '); '\n' !in Upper(tokens[|tokens| - 1])
  {
    var tokens := Split(matrixSize, ' ');
    var t := Upper(tokens[|tokens| - 1]);
    if '\n' in t {
      var i :| 0 <= i < |t| && t[i] == '\n';
      assert UpperChar(tokens[|tokens| - 1][i]) == '\n';
      assert tokens[|tokens| - 1][i] == '\n';
      SplitPiecesWithout(matrixSize, ' ', '\n', |tokens| - 1);
    }
  }

  /**
   * The header has exactly five lines: the object type, NDims as the number
   * of spaces in the answer, the answer itself as DimSize, the element type
   * and the data file name.
   */
  lemma HeaderLines(matrixSize: string)
    requires matrixSize != "" && '\n' !in matrixSize
    ensures var tokens := Split(matrixSize, ' ');
      Split(MinimalHeaderMHA(matrixSize).value, '\n') == [
        "ObjectType = Image",
        "NDims = " + DecimalString(multiset(matrixSize)[' ']),
        "DimSize = " + matrixSize,
        "ElementType = MET_" + Upper(tokens[|tokens| - 1]),
        "ElementDataFile = image.raw"]
  {
    var tokens := Split(matrixSize, ' ');
    SplitCount(matrixSize, ' ');
    DigitsOnOneLine(|tokens| - 1);
    LastTokenOnOneLine(matrixSize);
    FieldLines(DecimalString(|tokens| - 1), matrixSize, Upper(tokens[|tokens| - 1]));
  }

  /** A character missing from a string is missing from each of its pieces. */
  lemma {:induction false} SplitPiecesWithout(s: string, c: char, d: char, i: nat)
    requires d !in s && i < |Split(s, c)|
    ensures d !in Split(s, c)[i]
    decreases |s|
  {
    match IndexOf(s, c)
      case None =>
      case Some(k) =>
        if i > 0 {
          assert d !in s[k + 1..];
          SplitPiecesWithout(s[k + 1..], c, d, i - 1);
        } else {
          assert d !in s[..k];
        }
  }

  /** The default answer is four tokens joined by single spaces. */
  lemma DefaultTokens()
    ensures Split(DefaultMatrixSize, ' ') == ["64", "64", "39", "float"]
  {
    var parts := ["64", "64", "39", "float"];
    assert Join(parts, " ") == DefaultMatrixSize by {
      assert Join(parts[3..], " ") == "float";
      assert Join(parts[2..], " ") == "39 float";
      assert Join(parts[1..], " ") == "64 39 float";
    }
    SplitJoin(parts, ' ');
  }

  lemma UpperFloat()
    ensures Upper("float") == "FLOAT"
  {
    var u := Upper("float");
    assert u[0] == 'F' && u[1] == 'L' && u[2] == 'O' && u[3] == 'A' && u[4] == 'T';
  }

  /**
   * The dialog's default answer gives a three-dimensional float image: the
   * header's NDims is 3 and its element type MET_FLOAT.
   */
  lemma DefaultHeader()
    ensures MinimalHeaderMHA(DefaultMatrixSize) == Some(HeaderText("3", DefaultMatrixSize, "FLOAT"))
  {
    DefaultTokens();
    UpperFloat();
    assert DecimalString(3) == "3";
  }

}
