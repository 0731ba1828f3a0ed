/**
 * Loading a message body into a canvas (`loadVolume` in the three
 * NiiVueCanvas components), the MetaImage header built for `.raw` files,
 * and the oldest component's scaling and location updates. The viewer
 * library's loaders are not modelled: a load is the `Route` it takes.
 */
module NiiVueCanvas {
  import opened Common
  import opened Messages
  import RU = ReactUtility
  import US = SrcUtility
  import opened MetaImage

  /** `pat` occurs in `s` at index `k`. */
  predicate At(s: string, pat: string, k: nat)
  {
    k + |pat| <= |s| && s[k..k + |pat|] == pat
  }

  /** `s.indexOf(pat)`: the first index where `pat` occurs. */
  function Find(s: string, pat: string): (r: Option<nat>)
    ensures r.Some? ==> At(s, pat, r.value)
    ensures r.Some? ==> forall j :: 0 <= j < r.value ==> !At(s, pat, j)
    ensures r.None? ==> forall j :: 0 <= j < |s| ==> !At(s, pat, j)
    decreases |s|
  {
    if |s| < |pat| then None
    else if s[..|pat|] == pat then Some(0)
    else
      var rest := Find(s[1..], pat);
      assert forall j :: 0 < j < |s| ==> (At(s, pat, j) <==> At(s[1..], pat, j - 1)) by {
        forall j | 0 < j < |s| ensures At(s, pat, j) <==> At(s[1..], pat, j - 1) {
          if j + |pat| <= |s| {
            assert s[1..][j - 1..j - 1 + |pat|] == s[j..j + |pat|];
          }
        }
      }
      match rest
        case None => None
        case Some(k) => Some(k + 1)
  }

  /** A pattern holding a character the string lacks is not found. */
  lemma FindAbsent(s: string, pat: string, k: nat)
    requires k < |pat| && pat[k] !in s
    ensures Find(s, pat) == None
  {
  }

  /** `s.replace(pat, rep)` with a string pattern: only the first occurrence is replaced. */
  function ReplaceFirst(s: string, pat: string, rep: string): (r: string)
    ensures Find(s, pat).None? ==> r == s
    ensures Find(s, pat).Some? ==> |r| == |s| - |pat| + |rep|
  {
    match Find(s, pat)
      case None => s
      case Some(k) => s[..k] + rep + s[k + |pat|..]
  }

  /** `uri.replace('.ima', '.dcm').replace('.IMA', '.dcm')`. */
  function ImaToDcm(s: string): string
  {
    ReplaceFirst(ReplaceFirst(s, ".ima", ".dcm"), ".IMA", ".dcm")
  }

  /** A name without `.ima` or `.IMA` in it stays as it is. */
  lemma ImaToDcmKeeps(s: string)
    requires forall j :: 0 <= j < |s| ==> !At(s, ".ima", j) && !At(s, ".IMA", j)
    ensures ImaToDcm(s) == s
  {
  }

  /** The first place a pattern occurs is what `Find` returns. */
  lemma FindFirst(s: string, pat: string, k: nat)
    requires At(s, pat, k) && forall j :: 0 <= j < k ==> !At(s, pat, j)
    ensures Find(s, pat) == Some(k)
  {
  }

  /** Before a name without dots, a pattern that starts with a dot can only occur at the name's end. */
  lemma DotOnlyAfter(s: string, t: string, pat: string, j: nat)
    requires '.' !in s && |pat| > 0 && pat[0] == '.' && j < |s|
    ensures !At(s + t, pat, j)
  {
  }

  /**
   * The rename turns the first `.ima` into `.dcm` and leaves a later one
   * in place: for a dotless stem `s`, `s.ima` becomes `s.dcm`, and so does
   * `s.ima.ima` become `s.dcm.ima`.
   */
  lemma ImaToDcmFirstOnly(s: string, t: string)
    requires '.' !in s && 'I' !in s && 'I' !in t
    ensures ImaToDcm(s + ".ima" + t) == s + ".dcm" + t
  {
    var u := s + ".ima" + t;
    assert u == s + (".ima" + t);
    assert At(u, ".ima", |s|) by {
      assert u[|s|..|s| + 4] == ".ima";
    }
    forall j | 0 <= j < |s| ensures !At(u, ".ima", j) {
      DotOnlyAfter(s, ".ima" + t, ".ima", j);
    }
    FindFirst(u, ".ima", |s|);
    var v := s + ".dcm" + t;
    assert u[..|s|] + ".dcm" + u[|s| + 4..] == v;
    FindAbsent(v, ".IMA", 1);
  }

  /** The upper-case ending is renamed too: `s.IMA` becomes `s.dcm`. */
  lemma ImaToDcmUpper(s: string)
    requires '.' !in s
    ensures ImaToDcm(s + ".IMA") == s + ".dcm"
  {
    var u := s + ".IMA";
    assert At(u, ".IMA", |s|) by {
      assert u[|s|..|s| + 4] == ".IMA";
    }
    forall j | 0 <= j < |s| ensures !At(u, ".ima", j) && !At(u, ".IMA", j) {
      DotOnlyAfter(s, ".IMA", ".ima", j);
      DotOnlyAfter(s, ".IMA", ".IMA", j);
    }
    assert !At(u, ".ima", |s|) by {
      assert u[|s|..|s| + 4] == ".IMA";
      assert ".IMA" != ".ima" by { assert ".IMA"[1] != ".ima"[1]; }
    }
    assert Find(u, ".ima") == None;
    FindFirst(u, ".IMA", |s|);
    assert u[..|s|] + ".dcm" + u[|s| + 4..] == s + ".dcm";
  }

  /** JavaScript truthiness of `item.data`: a missing field or an empty string is falsy; buffers and arrays never are. */
  predicate Truthy(d: Data)
  {
    !(d.NoData? || (d.Text? && d.text == ""))
  }

  /** `item?.data?.length > 0`: strings and arrays have a length; an ArrayBuffer has none. */
  predicate HasLength(d: Data)
  {
    (d.Text? && d.text != "") || (d.FileList? && d.paths != [])
  }

  /** `item.data[i]`: an entry of a list, a character of a string, `undefined` otherwise. */
  function DataAt(d: Data, i: nat): Data
  {
    match d
      case FileList(ps) => if i < |ps| then FileBytes(ps[i]) else NoData
      case Text(t) => if i < |t| then Text([t[i]]) else NoData
      case _ => NoData
  }

  /** One entry handed to the DICOM loader: a file name and its data. */
  datatype DicomFile = DicomFile(name: string, data: Data)

  /** Where `loadVolume` sends a body. */
  datatype Route =
    | MincImage(name: string)                            // `loadImages([{ name: uri, url: data }])` with the MINC loader
    | UrlImage(url: string)                              // `loadImages([{ url: uri }])`
    | DicomVolume(files: seq<DicomFile>)                 // the DICOM loader, then its first result as a volume
    | RawVolume(name: string, header: string, paired: Data)   // the MetaImage header, gray at opacity 1
    | NoVolume                                           // `.raw` with the matrix-size dialog left empty
    | DataVolume(name: string)                           // the body's data as a volume named by the URI
    | UrlVolume(url: string)                             // `loadVolumes([{ url: uri }])`
    | DataMesh(name: string)                             // `readMesh(data, uri)`
    | UrlMesh(url: string)                               // `loadMeshes([{ url: uri }])`
    | Thrown(error: string)                              // the load rejects

  const NoLowerCase := "uri.toLowerCase is not a function"
  const NoEndsWith := "item.uri.endsWith is not a function"

  /** A MINC file name, in any case (`isMincFile`). */
  predicate IsMinc(s: string)
  {
    EndsWith(Lower(s), ".mnc") || EndsWith(Lower(s), ".mnc.gz")
  }

  /** The `.ima` rename: every name of a list, or a single name that ends in `.ima` or `.IMA`. */
  function Renamed(u: Uri): (r: Uri)
    ensures u.UriList? <==> r.UriList?
    ensures u.UriList? ==> |r.items| == |u.items|
  {
    match u
      case UriList(items) => UriList(seq(|items|, i requires 0 <= i < |items| => ImaToDcm(items[i])))
      case _ =>
        var s := UriText(u);
        if EndsWith(s, ".ima") || EndsWith(s, ".IMA") then Plain(ImaToDcm(s)) else u
  }

  /** The DICOM loader's input: names and data paired by index. */
  function DicomFiles(names: seq<string>, data: Data): (r: seq<DicomFile>)
    ensures |r| == |names|
    ensures forall i :: 0 <= i < |names| ==> r[i] == DicomFile(names[i], DataAt(data, i))
  {
    seq(|names|, i requires 0 <= i < |names| => DicomFile(names[i], DataAt(data, i)))
  }

  /**
   * The routing the two newer components share from the rename on: lists
   * and `.dcm` names to the DICOM loader (a single name wrapped into a
   * one-entry list with its data), then `.raw`, data with a length, image
   * types, mesh data, mesh URL. `rawPaired` says whether the `.raw` data is
   * handed over with its header.
   */
  function SharedRoute(uri: Uri, data: Data, matrixSize: string, isImage: string -> bool, rawPaired: bool): (r: Route)
    ensures !r.Thrown? && !r.MincImage? && !r.UrlImage?
    ensures uri.UriList? ==> r.DicomVolume? && |r.files| == |uri.items|
  {
    var u := Renamed(uri);
    if u.UriList? then DicomVolume(DicomFiles(u.items, data))
    else
      var s := UriText(u);
      if EndsWith(s, ".dcm") then DicomVolume([DicomFile(s, data)])
      else if EndsWith(s, ".raw") then
        match MinimalHeaderMHA(matrixSize)
          case None => NoVolume
          case Some(h) => RawVolume(s + ".mha", h, if rawPaired then data else NoData)
      else if HasLength(data) then DataVolume(s)
      else if isImage(s) then (if Truthy(data) then DataVolume(s) else UrlVolume(s))
      else if Truthy(data) then DataMesh(s)
      else UrlMesh(s)
  }

  /**
   * `loadVolume` of the React package as written. Its first step,
   * `isMincFile(item.uri)`, lower-cases the URI before anything checks for
   * a list, so a list of names throws.
   */
  function ReactRoute(item: ImageBody, matrixSize: string, isImage: string -> bool): (r: Route)
    ensures r.Thrown? <==> item.uri.UriList?
    ensures r.Thrown? ==> r.error == NoLowerCase
  {
    if item.uri.UriList? then Thrown(NoLowerCase)
    else
      var s := UriText(item.uri);
      if IsMinc(s) && Truthy(item.data) then MincImage(s)
      else if isImage(s) && !Truthy(item.data) && !EndsWith(s, ".dcm") then UrlImage(s)
      else SharedRoute(item.uri, item.data, matrixSize, isImage, false)
  }

  /** The same with the MINC test applied to single names only, as the list branch below it expects. */
  function CorrectedReactRoute(item: ImageBody, matrixSize: string, isImage: string -> bool): Route
  {
    if item.uri.UriList? then SharedRoute(item.uri, item.data, matrixSize, isImage, false)
    else ReactRoute(item, matrixSize, isImage)
  }

  /** `loadVolume` of the older component: the shared routing with the `.raw` data paired. */
  function SrcRoute(item: ImageBody, matrixSize: string, isImage: string -> bool): (r: Route)
    ensures !r.Thrown? && !r.MincImage? && !r.UrlImage?
    ensures item.uri.UriList? ==> r.DicomVolume? && |r.files| == |item.uri.items|
  {
    SharedRoute(item.uri, item.data, matrixSize, isImage, true)
  }

  /** `loadVolume` of the oldest component: `.raw`, image types, mesh data, mesh URL. */
  function OldestRoute(item: ImageBody, matrixSize: string, isImage: string -> bool): (r: Route)
    ensures r.Thrown? <==> item.uri.UriList?
    ensures r.Thrown? ==> r.error == NoEndsWith
    ensures !r.DicomVolume? && !r.MincImage? && !r.UrlImage?
  {
    if item.uri.UriList? then Thrown(NoEndsWith)
    else
      var s := UriText(item.uri);
      if EndsWith(s, ".raw") then
        match MinimalHeaderMHA(matrixSize)
          case None => NoVolume
          case Some(h) => RawVolume(s + ".mha", h, item.data)
      else if isImage(s) then (if Truthy(item.data) then DataVolume(s) else UrlVolume(s))
      else if Truthy(item.data) then DataMesh(s)
      else UrlMesh(s)
  }

  /** The three routings with the image-type test of their own package. */
  function ReactLoad(item: ImageBody, matrixSize: string): (r: Route)
    ensures r.Thrown? <==> item.uri.UriList?
  {
    ReactRoute(item, matrixSize, s => RU.IsImageType(s).Some?)
  }

  function SrcLoad(item: ImageBody, matrixSize: string): (r: Route)
    ensures !r.Thrown?
    ensures item.uri.UriList? ==> r.DicomVolume?
  {
    SrcRoute(item, matrixSize, s => US.IsImageType(s).Some?)
  }

  /**
   * A list of names is loaded as a DICOM series by the older component,
   * one loader entry per name, renamed, with its data; the React component
   * as written throws on the same body instead.
   */
  lemma ListRoutes(names: seq<string>, data: Data, matrixSize: string, isImage: string -> bool)
    ensures ReactRoute(ImageBody(UriList(names), data), matrixSize, isImage) == Thrown(NoLowerCase)
    ensures var r := SrcRoute(ImageBody(UriList(names), data), matrixSize, isImage);
      && r.DicomVolume? && |r.files| == |names|
      && forall i :: 0 <= i < |names| ==> r.files[i] == DicomFile(ImaToDcm(names[i]), DataAt(data, i))
  {
  }

  /** Corrected, the React component loads a list exactly as the older one does, except for the `.raw` pairing it never reaches. */
  lemma CorrectedListMatchesSrc(names: seq<string>, data: Data, matrixSize: string, isImage: string -> bool)
    ensures CorrectedReactRoute(ImageBody(UriList(names), data), matrixSize, isImage)
         == SrcRoute(ImageBody(UriList(names), data), matrixSize, isImage)
  {
  }

  /** A folder chosen in the browser page: the list of names with the list of contents. */
  lemma BrowserFolderRoutes(files: seq<string>)
    ensures ReactLoad(ImageBody(UriList(files), FileList(files)), DefaultMatrixSize).Thrown?
    ensures var r := CorrectedReactRoute(ImageBody(UriList(files), FileList(files)), DefaultMatrixSize, s => RU.IsImageType(s).Some?);
      r.DicomVolume? && forall i :: 0 <= i < |files| ==> r.files[i] == DicomFile(ImaToDcm(files[i]), FileBytes(files[i]))
  {
  }

  /**
   * The first routes of the React component: a MINC name with data goes to
   * the MINC loader; an image name without data that is not `.dcm` is
   * loaded from its URL; a single `.dcm` name goes to the DICOM loader as a
   * one-entry list carrying the body's data.
   */
  lemma ReactFirstRoutes(s: string, data: Data, matrixSize: string, isImage: string -> bool)
    ensures IsMinc(s) && Truthy(data) ==> ReactRoute(ImageBody(Plain(s), data), matrixSize, isImage) == MincImage(s)
    ensures !IsMinc(s) && isImage(s) && !Truthy(data) && !EndsWith(s, ".dcm") ==>
      ReactRoute(ImageBody(Plain(s), data), matrixSize, isImage) == UrlImage(s)
    ensures !(IsMinc(s) && Truthy(data)) && (Truthy(data) || !isImage(s)) && EndsWith(s, ".dcm") ==>
      ReactRoute(ImageBody(Plain(s), data), matrixSize, isImage) == DicomVolume([DicomFile(s, data)])
  {
  }

  /**
   * A MINC name without data is routed as if it were not MINC (only the
   * loader registration remains), and past the first two tests the React
   * and older components agree on every single name except `.raw`, whose
   * data the React component does not hand over.
   */
  lemma ReactFallsThrough(s: string, data: Data, matrixSize: string, isImage: string -> bool)
    ensures var item := ImageBody(Plain(s), data);
      !(IsMinc(s) && Truthy(data)) && !(isImage(s) && !Truthy(data) && !EndsWith(s, ".dcm")) ==>
        && ReactRoute(item, matrixSize, isImage) == SharedRoute(Plain(s), data, matrixSize, isImage, false)
        && (!EndsWith(UriText(Renamed(Plain(s))), ".raw") ==> ReactRoute(item, matrixSize, isImage) == SrcRoute(item, matrixSize, isImage))
  {
  }

  /**
   * `.raw`: an empty dialog answer adds nothing; otherwise the volume is
   * named after the file with `.mha` appended and built from the header,
   * with the file's data in the older components and without it in the
   * React one.
   */
  lemma RawRoutes(s: string, data: Data, matrixSize: string, isImage: string -> bool)
    requires EndsWith(s, ".raw")
    ensures !IsMinc(s)
    ensures var item := ImageBody(Plain(s), data);
      && (matrixSize == "" ==> SrcRoute(item, matrixSize, isImage) == NoVolume && OldestRoute(item, matrixSize, isImage) == NoVolume)
      && (matrixSize != "" ==>
            var h := MinimalHeaderMHA(matrixSize).value;
            && SrcRoute(item, matrixSize, isImage) == RawVolume(s + ".mha", h, data)
            && OldestRoute(item, matrixSize, isImage) == RawVolume(s + ".mha", h, data)
            && (!isImage(s) || Truthy(data) ==> ReactRoute(item, matrixSize, isImage) == RawVolume(s + ".mha", h, NoData)))
  {
    assert !EndsWith(s, ".ima") && !EndsWith(s, ".IMA") && !EndsWith(s, ".dcm") by {
      EndsWithLast(s, ".raw");
    }
    assert !IsMinc(s) by {
      var l := Lower(s);
      assert l[|l| - 1] == LowerChar(s[|s| - 1]) == 'w' by { EndsWithLast(s, ".raw"); }
      if EndsWith(l, ".mnc") { EndsWithLast(l, ".mnc"); }
      if EndsWith(l, ".mnc.gz") { EndsWithLast(l, ".mnc.gz"); }
    }
  }

  /**
   * The body's data decides between a volume from data and one from the
   * URL for image names, and between a mesh from data and a mesh URL
   * otherwise, in every component.
   */
  lemma DataOrUrl(s: string, data: Data, matrixSize: string, isImage: string -> bool)
    requires !EndsWith(s, ".raw") && !EndsWith(s, ".dcm") && !EndsWith(s, ".ima") && !EndsWith(s, ".IMA")
    ensures var r := OldestRoute(ImageBody(Plain(s), data), matrixSize, isImage);
      && (isImage(s) && Truthy(data) ==> r == DataVolume(s))
      && (isImage(s) && !Truthy(data) ==> r == UrlVolume(s))
      && (!isImage(s) && Truthy(data) ==> r == DataMesh(s))
      && (!isImage(s) && !Truthy(data) ==> r == UrlMesh(s))
    ensures var r := SrcRoute(ImageBody(Plain(s), data), matrixSize, isImage);
      && (HasLength(data) || (isImage(s) && Truthy(data)) ==> r == DataVolume(s))
      && (!HasLength(data) && isImage(s) && !Truthy(data) ==> r == UrlVolume(s))
      && (!HasLength(data) && !isImage(s) && Truthy(data) ==> r == DataMesh(s))
      && (!isImage(s) && !Truthy(data) ==> r == UrlMesh(s))
  {
  }

  /** An ArrayBuffer has no length: a buffer of a mesh file takes the mesh route, not the data-volume one. */
  lemma BufferHasNoLength(s: string, bytes: seq<byte>, matrixSize: string, isImage: string -> bool)
    requires !EndsWith(s, ".raw") && !EndsWith(s, ".dcm") && !EndsWith(s, ".ima") && !EndsWith(s, ".IMA")
    requires !isImage(s)
    ensures SrcRoute(ImageBody(Plain(s), Bytes(bytes)), matrixSize, isImage) == DataMesh(s)
    ensures SrcRoute(ImageBody(Plain(s), Text("x")), matrixSize, isImage) == DataVolume(s)
  {
  }

  // ----- the oldest component's canvas state -----

  /** The display window of a volume (`cal_min`, `cal_max`). */
  datatype Window = Window(calMin: real, calMax: real)

  /** The scaling signal: a manual window or the automatic one. */
  datatype Scaling = Scaling(isManual: bool, min: real, max: real)

  /** `applyScale`: a manual scaling replaces the window of volume 0 and nothing else. */
  function ApplyScale(windows: seq<Window>, scaling: Scaling): (r: seq<Window>)
    requires |windows| > 0
    ensures |r| == |windows| && r[1..] == windows[1..]
    ensures scaling.isManual ==> r[0] == Window(scaling.min, scaling.max)
    ensures !scaling.isManual ==> r == windows
  {
    if scaling.isManual then windows[0 := Window(scaling.min, scaling.max)] else windows
  }

  /** Scaling twice is scaling once. */
  lemma ApplyScaleIdempotent(windows: seq<Window>, scaling: Scaling)
    requires |windows| > 0
    ensures ApplyScale(ApplyScale(windows, scaling), scaling) == ApplyScale(windows, scaling)
  {
  }

  /**
   * What `setIntensityAndLocation` leaves in the two signals: with exactly
   * one '=' the text after it is the intensity and the text before it the
   * location; otherwise the intensity stays and the location is the last
   * piece.
   */
  function IntensityAndLocation(text: string, intensity: string): (r: (string, string))
  {
    var parts := Split(text, '=');
    if |parts| == 2 then (parts[1], parts[0]) else (intensity, parts[|parts| - 1])
  }

  /** The two shapes of the location text: `location=value`, and a text without '='. */
  lemma IntensityAndLocationCases(a: string, b: string, intensity: string)
    requires '=' !in a && '=' !in b
    ensures IntensityAndLocation(a + "=" + b, intensity) == (b, a)
    ensures IntensityAndLocation(a, intensity) == (intensity, a)
  {
    SplitWithout(b, '=');
    SplitAround(a, '=', b);
    SplitWithout(a, '=');
  }

  /** A text with two '=' keeps the intensity and takes the last piece as the location. */
  lemma IntensityAndLocationTwoSigns(a: string, b: string, c: string, intensity: string)
    requires '=' !in a && '=' !in b && '=' !in c
    ensures IntensityAndLocation(a + "=" + b + "=" + c, intensity) == (intensity, c)
  {
    SplitWithout(c, '=');
    SplitAround(b, '=', c);
    assert a + "=" + b + "=" + c == a + ['='] + (b + ['='] + c);
    SplitAround(a, '=', b + ['='] + c);
  }

  /** A canvas of the oldest component: loaded or not, its pending body, its volumes' windows. */
  datatype OldViewer = OldViewer(isLoaded: bool, body: Option<ImageBody>, windows: seq<Window>)

  /**
   * The app signals the oldest canvas writes: its viewers, `nv0` (the index
   * of the first viewer that finished loading, if one did), the intensity
   * and the location texts.
   */
  class OldestCanvas {
    var viewers: seq<OldViewer>
    var nv0: Option<nat>
    var intensity: string
    var location: string

    constructor (initial: seq<OldViewer>)
      ensures viewers == initial && nv0 == None && intensity == "" && location == ""
    {
      viewers := initial;
      nv0 := None;
      intensity := "";
      location := "";
    }

    /**
     * The load effect of viewer `i`: a viewer with a body is routed; unless
     * the load throws, it becomes loaded, its body is cleared, and it
     * becomes `nv0` when no viewer had.
     */
    method FinishLoad(i: nat, matrixSize: string, isImage: string -> bool) returns (route: Option<Route>)
      requires i < |viewers|
      modifies this`viewers, this`nv0
      ensures old(viewers[i].body).None? ==> route.None? && viewers == old(viewers) && nv0 == old(nv0)
      ensures old(viewers[i].body).Some? ==> route == Some(OldestRoute(old(viewers[i].body).value, matrixSize, isImage))
      ensures route.Some? && route.value.Thrown? ==> viewers == old(viewers) && nv0 == old(nv0)
      ensures route.Some? && !route.value.Thrown? ==>
        && viewers == old(viewers)[i := old(viewers[i]).(isLoaded := true, body := None)]
        && nv0 == (if old(nv0).None? then Some(i) else old(nv0))
      ensures old(nv0).Some? ==> nv0 == old(nv0)
      ensures nv0.Some? ==> old(nv0).Some? || (route.Some? && nv0 == Some(i))
    {
      var body := viewers[i].body;
      if body.None? {
        return None;
      }
      var r := OldestRoute(body.value, matrixSize, isImage);
      route := Some(r);
      if r.Thrown? {
        return;
      }
      viewers := viewers[i := viewers[i].(isLoaded := true, body := None)];
      if nv0.None? {
        nv0 := Some(i);
      }
    }

    /** The location handler (`setIntensityAndLocation` on the viewer's location text). */
    method OnLocationChange(text: string)
      modifies this`intensity, this`location
      ensures (intensity, location) == IntensityAndLocation(text, old(intensity))
    {
      var parts := Split(text, '=');
      if |parts| == 2 {
        intensity := parts[1];
        parts := parts[..1];
      }
      location := parts[|parts| - 1];
    }

    /** The render pass of viewer `i`: a loaded viewer with volumes gets the scaling applied. */
    method Render(i: nat, scaling: Scaling)
      requires i < |viewers|
      modifies this`viewers
      ensures var v := old(viewers[i]);
        viewers == if v.isLoaded && |v.windows| > 0
                   then old(viewers)[i := v.(windows := ApplyScale(v.windows, scaling))]
                   else old(viewers)
    {
      var v := viewers[i];
      if v.isLoaded && |v.windows| > 0 {
        viewers := viewers[i := v.(windows := ApplyScale(v.windows, scaling))];
      }
    }
  }
}
