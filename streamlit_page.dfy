/**
 * The two Streamlit pages that embed the viewer's own build: the
 * stand-alone app (`niivue-streamlit/app.py`) and the component frontend
 * `NiiVueViewer`. Both write one HTML page holding the base64 of the
 * image and a small bridge script that answers the viewer's `ready`.
 */
module StreamlitPage {
  import opened Common
  import opened Messages
  import opened Base64
  import opened JsonText

  /**
   * One candidate build directory as the file system presents it: whether
   * the directory and its two assets exist, and what reading each asset
   * gives (None: the read raises).
   */
  datatype Candidate = Candidate(dirExists: bool, cssExists: bool, jsExists: bool,
                                 css: Option<string>, js: Option<string>)

  predicate Usable(c: Candidate)
  {
    c.dirExists && c.cssExists && c.jsExists
  }

  predicate FullyReadable(c: Candidate)
  {
    Usable(c) && c.css.Some? && c.js.Some?
  }

  /**
   * The search from `cands` on, having read `css` and `js` so far: a usable
   * candidate whose CSS read raises is skipped; one whose JS read raises is
   * skipped too, but its CSS stays read; the first one read in full ends
   * the search.
   */
  function SearchFrom(cands: seq<Candidate>, css: string, js: string): (r: (string, string))
    ensures r.1 == js || exists k :: 0 <= k < |cands| && FullyReadable(cands[k]) && r == (cands[k].css.value, cands[k].js.value)
    ensures r.0 == css || exists k :: 0 <= k < |cands| && Usable(cands[k]) && cands[k].css == Some(r.0)
    decreases |cands|
  {
    if |cands| == 0 then (css, js)
    else
      var c := cands[0];
      if !Usable(c) || c.css.None? then SearchFrom(cands[1..], css, js)
      else if c.js.None? then SearchFrom(cands[1..], c.css.value, js)
      else (c.css.value, c.js.value)
  }

  /** `read_build_files()` over the candidate directories, in their listed order. */
  function BuildFiles(cands: seq<Candidate>): (r: (string, string))
    ensures r.1 == "" || exists k :: 0 <= k < |cands| && FullyReadable(cands[k]) && r == (cands[k].css.value, cands[k].js.value)
  {
    SearchFrom(cands, "", "")
  }

  /** `FILES_READY`: both contents are non-empty. */
  predicate FilesReady(files: (string, string))
  {
    files.0 != "" && files.1 != ""
  }

  /** The first candidate read in full supplies both files, whatever was read before it. */
  lemma {:induction false} FirstFullyReadableWins(cands: seq<Candidate>, k: nat, css: string, js: string)
    requires k < |cands| && FullyReadable(cands[k])
    requires forall j :: 0 <= j < k ==> !FullyReadable(cands[j])
    ensures SearchFrom(cands, css, js) == (cands[k].css.value, cands[k].js.value)
  {
    if k > 0 {
      var c := cands[0];
      assert !FullyReadable(c);
      var css' := if Usable(c) && c.css.Some? then c.css.value else css;
      assert SearchFrom(cands, css, js) == SearchFrom(cands[1..], css', js);
      FirstFullyReadableWins(cands[1..], k - 1, css', js);
    }
  }

  /** Without a candidate read in full, the JS stays what it was. */
  lemma {:induction false} NoFullReadKeepsJs(cands: seq<Candidate>, css: string, js: string)
    requires forall j :: 0 <= j < |cands| ==> !FullyReadable(cands[j])
    ensures SearchFrom(cands, css, js).1 == js
    decreases |cands|
  {
    if |cands| > 0 {
      var c := cands[0];
      var css' := if Usable(c) && c.css.Some? then c.css.value else css;
      assert SearchFrom(cands, css, js) == SearchFrom(cands[1..], css', js);
      NoFullReadKeepsJs(cands[1..], css', js);
    }
  }

  /**
   * The page is ready only if some candidate was read in full, and then
   * the files are the first such candidate's; without one the JS is ""
   * even when a CSS file was read, so the app stops.
   */
  lemma BuildFilesReady(cands: seq<Candidate>)
    ensures FilesReady(BuildFiles(cands)) ==> exists k :: 0 <= k < |cands| && FullyReadable(cands[k])
    ensures (forall j :: 0 <= j < |cands| ==> !FullyReadable(cands[j])) ==> BuildFiles(cands).1 == ""
    ensures forall k :: 0 <= k < |cands| && FullyReadable(cands[k]) && (forall j :: 0 <= j < k ==> !FullyReadable(cands[j]))
              ==> BuildFiles(cands) == (cands[k].css.value, cands[k].js.value)
  {
    if forall j :: 0 <= j < |cands| ==> !FullyReadable(cands[j]) {
      NoFullReadKeepsJs(cands, "", "");
    }
    forall k | 0 <= k < |cands| && FullyReadable(cands[k]) && (forall j :: 0 <= j < k ==> !FullyReadable(cands[j]))
      ensures BuildFiles(cands) == (cands[k].css.value, cands[k].js.value)
    {
      FirstFullyReadableWins(cands, k, "", "");
    }
  }

  /**
   * The search loop: `css_content` and `js_content` start empty, a raised
   * read goes on with the next directory, and a full read returns at once.
   */
  method ReadBuildFiles(cands: seq<Candidate>) returns (css: string, js: string)
    ensures (css, js) == BuildFiles(cands)
  {
    css, js := "", "";
    var i := 0;
    while i < |cands|
      invariant 0 <= i <= |cands|
      invariant SearchFrom(cands[i..], css, js) == BuildFiles(cands)
    {
      var c := cands[i];
      assert cands[i..][1..] == cands[i + 1..];
      if Usable(c) {
        if c.css.Some? {
          css := c.css.value;
          if c.js.Some? {
            js := c.js.value;
            return;
          }
        }
      }
      i := i + 1;
    }
  }

  /** An uploaded file: its name and bytes. */
  datatype Upload = Upload(name: string, bytes: seq<byte>)

  /**
   * The two texts pasted, unescaped, between the quotes of the page's
   * `nifti-data` element: the base64 and the file name.
   */
  datatype PageData = PageData(base64: string, filename: string)

  /** `JSON.parse` of the `nifti-data` element succeeds: both pasted texts are valid literal bodies. */
  predicate Parses(p: PageData)
  {
    Unescape(p.base64).Some? && Unescape(p.filename).Some?
  }

  /** `niftiJson.data_base64`: the base64 text as parsed. */
  function DataOf(p: PageData): string
    requires Parses(p)
  {
    Unescape(p.base64).value
  }

  /** `niftiJson.filename`: the file name as parsed, its escapes decoded. */
  function NameOf(p: PageData): string
    requires Parses(p)
  {
    Unescape(p.filename).value
  }

  /** The placeholders as `app.py` fills them: the upload's base64 and name, or "" for both. */
  function AppPage(upload: Option<Upload>): (r: PageData)
    ensures Parses(r) <==> upload.None? || Unescape(upload.value.name).Some?
    ensures Parses(r) && upload.Some? ==> DataOf(r) == Encode(upload.value.bytes)
  {
    if upload.Some? then
      EncodeJsonSafe(upload.value.bytes);
      SafeUnescapesToItself(Encode(upload.value.bytes));
      PageData(Encode(upload.value.bytes), upload.value.name)
    else
      PageData("", "")
  }

  /** The page without an upload is empty; with one it carries the name and bytes that decode back. */
  lemma AppPagePlaceholders(upload: Option<Upload>)
    ensures upload.None? ==> AppPage(upload) == PageData("", "")
    ensures upload.Some? ==>
      && AppPage(upload).filename == upload.value.name
      && ForgivingDecode(AppPage(upload).base64) == Some(upload.value.bytes)
  {
    if upload.Some? {
      RoundTrip(upload.value.bytes);
    }
  }

  /** The settings the bridge always posts first. */
  const BridgeSettings := InitSettings(StreamlitSettings(true, [0.2, 0.2, 0.2, 1.0], 0.05))

  /**
   * `initializeNiiVue()`: the element is parsed first, and a value that
   * breaks the JSON makes the parse throw before anything is posted. Then
   * the settings, then, when the parsed base64 is over 1000 characters and
   * decodes, one canvas announced by a bare 1 and the image as bytes under
   * the parsed file name. A failing decode is caught after the settings
   * were posted.
   */
  function Initialize(p: PageData): (r: seq<Message>)
    ensures Parses(p) <==> |r| >= 1
    ensures |r| >= 1 ==> r[0] == BridgeSettings
  {
    if !Parses(p) then []
    else
      [BridgeSettings]
      + if |DataOf(p)| > 1000 && ForgivingDecode(DataOf(p)).Some? then
          [InitCanvas(BareNumber(1)), AddImage(ImageBody(Plain(NameOf(p)), Bytes(ForgivingDecode(DataOf(p)).value)))]
        else []
  }

  /** What the bridge posts for one message: `initializeNiiVue()` for `ready`, nothing otherwise. */
  function BridgeReply(p: PageData, m: Message): (r: seq<Message>)
    ensures !m.Ready? ==> r == []
    ensures |r| <= 3
    ensures m.Ready? && Parses(p) ==> r != [] && r[0] == BridgeSettings
  {
    if m.Ready? then Initialize(p) else []
  }

  /**
   * The bridge's reply to `ready` has none, one or three messages: none
   * exactly when the element does not parse, three exactly when it parses
   * and the parsed data is long enough and decodes, and then the image is
   * the decoded bytes under the parsed file name.
   */
  lemma InitializeShape(p: PageData)
    ensures |Initialize(p)| == 0 || |Initialize(p)| == 1 || |Initialize(p)| == 3
    ensures |Initialize(p)| == 0 <==> !Parses(p)
    ensures |Initialize(p)| == 3 <==> Parses(p) && |DataOf(p)| > 1000 && ForgivingDecode(DataOf(p)).Some?
    ensures |Initialize(p)| == 3 ==>
      Initialize(p)[2] == AddImage(ImageBody(Plain(NameOf(p)), Bytes(ForgivingDecode(DataOf(p)).value)))
  {
  }

  /** The encoder's output is always JSON-safe: it is all alphabet and padding. */
  lemma EncodeJsonSafe(b: seq<byte>)
    ensures JsonSafe(Encode(b))
  {
    var body := Chars(SextetsOf(b));
    var t := Encode(b);
    forall i | 0 <= i < |t|
      ensures StandsForItself(t[i])
    {
      if i < |body| {
        assert t[i] == body[i];
        assert SextetOf(t[i]).Some?;
      }
    }
  }

  /**
   * A file name that is no valid literal body (a bare quote, a control
   * character, a backslash that starts no escape) makes the bridge post
   * nothing at all.
   */
  lemma UnsafeNamePostsNothing(p: PageData, m: Message)
    requires Unescape(p.filename).None?
    ensures BridgeReply(p, m) == []
  {
  }

  /**
   * End to end for the app: an upload whose name parses and whose base64
   * is over 1000 characters reaches the viewer as its own bytes under the
   * parsed name, which is the name itself when it holds nothing to
   * escape; a smaller one, and a page without upload, get the settings
   * alone; an upload whose name breaks the literal gets nothing.
   */
  lemma AppUploadReachesViewer(upload: Option<Upload>)
    ensures upload.Some? && Unescape(upload.value.name).Some? && |Encode(upload.value.bytes)| > 1000 ==>
      Initialize(AppPage(upload))
        == [BridgeSettings, InitCanvas(BareNumber(1)),
            AddImage(ImageBody(Plain(Unescape(upload.value.name).value), Bytes(upload.value.bytes)))]
    ensures upload.Some? && JsonSafe(upload.value.name) && |Encode(upload.value.bytes)| > 1000 ==>
      Initialize(AppPage(upload))
        == [BridgeSettings, InitCanvas(BareNumber(1)), AddImage(ImageBody(Plain(upload.value.name), Bytes(upload.value.bytes)))]
    ensures upload.None? || (Unescape(upload.value.name).Some? && |Encode(upload.value.bytes)| <= 1000) ==>
      Initialize(AppPage(upload)) == [BridgeSettings]
    ensures upload.Some? && Unescape(upload.value.name).None? ==> Initialize(AppPage(upload)) == []
  {
    AppPagePlaceholders(upload);
    if upload.Some? && JsonSafe(upload.value.name) {
      SafeUnescapesToItself(upload.value.name);
    }
  }

  /**
   * A name holding a doubled backslash reaches the viewer with one
   * backslash: the upload `a\\b.nii` is delivered as `a\b.nii`.
   */
  lemma EscapedNameReachesViewer(x: string, y: string, b: seq<byte>)
    requires JsonSafe(x) && JsonSafe(y) && |Encode(b)| > 1000
    ensures Initialize(AppPage(Some(Upload(x + "\\\\" + y, b))))
      == [BridgeSettings, InitCanvas(BareNumber(1)), AddImage(ImageBody(Plain(x + "\\" + y), Bytes(b)))]
  {
    DoubledBackslash(x, y);
    AppUploadReachesViewer(Some(Upload(x + "\\\\" + y, b)));
  }

  /** The embedded bridge: it posts to its own window for every message it hears. */
  class Bridge {
    const page: PageData
    var posted: seq<Message>

    constructor (page: PageData)
      ensures this.page == page && posted == []
    {
      this.page := page;
      posted := [];
    }

    /**
     * The `message` listener, with the parse and the decode loop of
     * `initializeNiiVue` and its `try`.
     */
    method OnMessage(m: Message)
      modifies this
      ensures posted == old(posted) + BridgeReply(page, m)
    {
      if m.Ready? && Parses(page) {
        var data, name := DataOf(page), NameOf(page);
        posted := posted + [BridgeSettings];
        if |data| > 1000 {
          var decoded := Base64ToArrayBuffer(data);
          if decoded.Ok? {
            posted := posted + [InitCanvas(BareNumber(1)), AddImage(ImageBody(Plain(name), Bytes(decoded.value)))];
          }
        }
      }
    }
  }

  /** The component's arguments as `NiiVueViewer` reads them; absent ones are None. */
  datatype ViewerArgs = ViewerArgs(niftiData: Option<string>, filename: Option<string>, height: Option<int>,
                                   css: Option<string>, js: Option<string>)

  /** `x || ''` for an optional string. */
  function OrEmpty(s: Option<string>): string
  {
    if s.Some? then s.value else ""
  }

  /** `height || 600`: a missing or zero height is 600. */
  function FrameHeight(h: Option<int>): (r: int)
    ensures h.None? || h.value == 0 ==> r == 600
    ensures h.Some? && h.value != 0 ==> r == h.value
  {
    if h.Some? && h.value != 0 then h.value else 600
  }

  /** The component page's placeholders: the given data and file name, or "". */
  function ViewerPage(a: ViewerArgs): PageData
  {
    PageData(OrEmpty(a.niftiData), OrEmpty(a.filename))
  }

  /** The loading text names the file exactly when there is data. */
  function LoadingText(a: ViewerArgs): (r: string)
    ensures OrEmpty(a.niftiData) != "" ==> r == "Loading " + OrEmpty(a.filename) + "..."
    ensures OrEmpty(a.niftiData) == "" ==> r == "Upload a NIFTI file to begin"
  {
    if OrEmpty(a.niftiData) != "" then "Loading " + OrEmpty(a.filename) + "..." else "Upload a NIFTI file to begin"
  }

  /** The iframe written into the container: its height, loading text and page data. */
  datatype Frame = Frame(height: int, loadingText: string, page: PageData)

  function FrameFor(a: ViewerArgs): Frame
  {
    Frame(FrameHeight(a.height), LoadingText(a), ViewerPage(a))
  }

  /** What building the iframe throws, if anything: an `Error` with its message, or another value. */
  datatype Thrown = ErrorValue(message: string) | OtherValue

  /** The text the error panel shows. */
  function ThrownMessage(t: Thrown): string
  {
    if t.ErrorValue? then t.message else "Unknown error"
  }

  /** What the component renders: the container, or the error panel with its message. */
  datatype View = Container(height: int) | ErrorPanel(height: int, message: string)

  /**
   * The `NiiVueViewer` component across renders. `lastDeps` holds the
   * dependencies the iframe effect last ran with, `lastHeight` those of the
   * height effect. Once an error is shown the container is no longer
   * rendered, so later iframe effects find no container and do nothing.
   * An empty message is falsy: it shows no panel and keeps the container.
   */
  class ViewerComponent {
    var lastHeight: Option<Option<int>>
    var reportedHeight: Option<int>
    var lastDeps: Option<ViewerArgs>
    var frame: Option<Frame>
    var builds: nat
    var error: Option<string>

    constructor ()
      ensures lastHeight == None && reportedHeight == None && lastDeps == None
      ensures frame == None && builds == 0 && error == None
    {
      lastHeight := None;
      reportedHeight := None;
      lastDeps := None;
      frame := None;
      builds := 0;
      error := None;
    }

    /** `if (error)`: an error is shown when one was set and its message is not empty. */
    predicate ShowsError()
      reads this
    {
      error.Some? && error.value != ""
    }

    /** The rendered element for the current arguments. */
    function Rendered(a: ViewerArgs): (v: View)
      reads this
      ensures ShowsError() <==> v.ErrorPanel?
      ensures v.ErrorPanel? ==> Some(v.message) == error
      ensures v.height == FrameHeight(a.height)
    {
      if ShowsError() then ErrorPanel(FrameHeight(a.height), error.value) else Container(FrameHeight(a.height))
    }

    /**
     * One render and its effects. The height is reported when it changed;
     * the iframe is rebuilt when any of data, file name, CSS, JS or height
     * changed and the container is mounted; `failure` is what building it
     * throws, which switches the component to the error panel.
     */
    method Render(a: ViewerArgs, failure: Option<Thrown>)
      modifies this
      ensures lastHeight == Some(a.height)
      ensures reportedHeight == if old(lastHeight) != Some(a.height) then Some(FrameHeight(a.height)) else old(reportedHeight)
      ensures lastDeps == Some(a)
      ensures var rebuild := old(lastDeps) != Some(a) && !old(ShowsError());
        && (rebuild && failure.None? ==> frame == Some(FrameFor(a)) && builds == old(builds) + 1 && error == old(error))
        && (rebuild && failure.Some? ==> frame == old(frame) && builds == old(builds) && error == Some(ThrownMessage(failure.value)))
        && (!rebuild ==> frame == old(frame) && builds == old(builds) && error == old(error))
    {
      if lastHeight != Some(a.height) {
        lastHeight := Some(a.height);
        reportedHeight := Some(FrameHeight(a.height));
      }
      if lastDeps != Some(a) {
        lastDeps := Some(a);
        if !ShowsError() {
          if failure.None? {
            frame := Some(FrameFor(a));
            builds := builds + 1;
          } else {
            error := Some(ThrownMessage(failure.value));
          }
        }
      }
    }
  }

  /**
   * The component's page speaks the same bridge as the app's: for the same
   * image bytes and name, the viewer gets the same messages from both.
   */
  lemma SameBridgeAsApp(u: Upload, a: ViewerArgs)
    requires a.niftiData == Some(Encode(u.bytes)) && a.filename == Some(u.name)
    ensures Initialize(ViewerPage(a)) == Initialize(AppPage(Some(u)))
  {
  }
}
