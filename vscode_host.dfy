/**
 * The editor extension of the current app (`NiiVueEditorProvider`): what
 * it posts to a webview panel when the page reports `ready`, and how it
 * answers the page's requests for overlays, images and DICOM folders.
 * Files under the workspace are sent as webview URLs; DICOM and MINC
 * files, and files outside the workspace, are sent as data.
 */
module VscodeHost {
  import opened Common
  import opened Messages
  import opened HostCommon

  /** `postInitSettings`: each setting as the user set it, or its default. */
  function SettingsMessage(c: Config): (r: Message)
    ensures r.InitSettings? && r.settings.EditorSettings?
  {
    InitSettings(EditorSettings(
      GetFlag(c, "showCrosshairs", true),
      GetFlag(c, "interpolation", true),
      GetFlag(c, "colorbar", false),
      GetFlag(c, "radiologicalConvention", false),
      GetFlag(c, "zoomDragMode", false),
      GetName(c, "defaultVolumeColormap", "gray"),
      GetName(c, "defaultOverlayColormap", "redyell")))
  }

  /** With nothing configured, crosshairs and interpolation are on, the rest off, and the colormaps gray and redyell. */
  lemma DefaultSettings()
    ensures SettingsMessage(Config(map[], map[]))
      == InitSettings(EditorSettings(true, true, false, false, false, "gray", "redyell"))
  {
  }

  const FlagKeys: set<string> := {"showCrosshairs", "interpolation", "colorbar", "radiologicalConvention", "zoomDragMode"}
  const NameKeys: set<string> := {"defaultVolumeColormap", "defaultOverlayColormap"}

  /** A configured value overrides its default, and keys outside the seven settings are never read. */
  lemma SettingsReadOnlyTheirKeys(c: Config, key: string, b: bool, name: string)
    ensures key !in FlagKeys ==> SettingsMessage(c.(flags := c.flags[key := b])) == SettingsMessage(c)
    ensures key !in NameKeys ==> SettingsMessage(c.(names := c.names[key := name])) == SettingsMessage(c)
    ensures SettingsMessage(c.(flags := c.flags["colorbar" := b])).settings.colorbar == b
    ensures SettingsMessage(c.(names := c.names["defaultOverlayColormap" := name])).settings.defaultOverlayColormap == name
  {
  }

  /** `createFileUrl`: the webview URL of a local file, as a string. */
  function FileUrl(u: VsUri): string
  {
    WebviewOrigin + u.path
  }

  /** An `addImage` carrying only the file's webview URL. */
  function UrlImage(u: VsUri): Message
  {
    AddImage(ImageBody(WebviewUrl(u.path), NoData))
  }

  /** One `addImage` per URI, in order, each by URL. */
  function UrlImages(uris: seq<VsUri>): (r: seq<Message>)
    ensures |r| == |uris|
    ensures forall i :: 0 <= i < |uris| ==> r[i] == UrlImage(uris[i])
  {
    seq(|uris|, i requires 0 <= i < |uris| => UrlImage(uris[i]))
  }

  /** What a panel opened by a command shows: one file, a DICOM folder (with its listing), or files side by side. */
  datatype Target =
    | SingleFile(uri: VsUri)
    | DcmFolder(folder: VsUri, listing: seq<string>)
    | CompareFiles(uris: seq<VsUri>)

  /** The messages the panel's `ready` handler posts, in order. */
  function ReadyReply(t: Target, c: Config): seq<Message>
  {
    match t
      case SingleFile(u) => [SettingsMessage(c), UrlImage(u)]
      case DcmFolder(f, listing) => [SettingsMessage(c)] + DcmFolderMessages(f, listing)
      case CompareFiles(uris) => [SettingsMessage(c), InitCanvas(Count(|uris|))] + UrlImages(uris)
  }

  /** Settings always come first; a single file is sent as one URL. */
  lemma SingleFileReply(u: VsUri, c: Config)
    ensures ReadyReply(SingleFile(u), c) == [SettingsMessage(c), AddImage(ImageBody(WebviewUrl(u.path), NoData))]
    ensures CountAddImage(ReadyReply(SingleFile(u), c)) == 1
  {
    var r := ReadyReply(SingleFile(u), c);
    assert r[..1] == [SettingsMessage(c)];
    assert r[..1][..0] == [];
  }

  /** A DICOM folder is sent after the settings as one message with all its files, or none for an empty folder. */
  lemma DcmFolderReply(f: VsUri, listing: seq<string>, c: Config)
    ensures var r := ReadyReply(DcmFolder(f, listing), c);
      && r[0] == SettingsMessage(c)
      && CountAddImage(r) == (if |listing| == 0 then 0 else 1)
  {
    var d := DcmFolderMessages(f, listing);
    CountAddImageAppend([SettingsMessage(c)], d);
    assert [SettingsMessage(c)][..0] == [];
    if |listing| > 0 {
      assert d[..0] == [];
    }
  }

  /**
   * A comparison posts the settings, announces as many canvases as files,
   * and then sends each file by URL in the order given.
   */
  lemma CompareReply(uris: seq<VsUri>, c: Config)
    ensures var r := ReadyReply(CompareFiles(uris), c);
      && |r| == |uris| + 2 && r[0] == SettingsMessage(c) && r[1] == InitCanvas(Count(|uris|))
      && CountAddImage(r) == |uris|
      && forall i :: 0 <= i < |uris| ==> r[i + 2] == UrlImage(uris[i])
  {
    var head := [SettingsMessage(c), InitCanvas(Count(|uris|))];
    AfterHead(SettingsMessage(c), InitCanvas(Count(|uris|)), UrlImages(uris));
    CountAddImageAppend(head, UrlImages(uris));
    CountTwo(SettingsMessage(c), InitCanvas(Count(|uris|)));
    UrlImagesCount(uris);
  }

  lemma {:induction false} UrlImagesCount(uris: seq<VsUri>)
    ensures CountAddImage(UrlImages(uris)) == |uris|
  {
    if |uris| > 0 {
      assert UrlImages(uris)[..|uris| - 1] == UrlImages(uris[..|uris| - 1]);
      UrlImagesCount(uris[..|uris| - 1]);
    }
  }

  /**
   * The `ready` listener of a panel opened by `createOrShow`,
   * `createOrShowDcmFolder` or `createCompareView`: the first `ready` sets
   * `isImageSent` and posts the settings and the images; later ones post
   * nothing.
   */
  class ReadyListener {
    const target: Target
    const config: Config
    var isImageSent: bool
    var sent: seq<Message>

    constructor (target: Target, config: Config)
      ensures this.target == target && this.config == config
      ensures !isImageSent && sent == []
    {
      this.target := target;
      this.config := config;
      isImageSent := false;
      sent := [];
    }

    method OnDidReceiveMessage(e: Message)
      modifies this
      ensures isImageSent == (old(isImageSent) || e.Ready?)
      ensures sent == old(sent) + (if e.Ready? && !old(isImageSent) then ReadyReply(target, config) else [])
    {
      if e.Ready? && !isImageSent {
        isImageSent := true;
        sent := sent + [SettingsMessage(config)];
        match target {
          case SingleFile(u) =>
            sent := sent + [UrlImage(u)];
          case DcmFolder(f, listing) =>
            sent := sent + DcmFolderMessages(f, listing);
          case CompareFiles(uris) =>
            var images := PostUrlImages(uris);
            sent := sent + [InitCanvas(Count(|uris|))] + images;
        }
      }
    }
  }

  /** `for (const uri of uris)`: one `addImage` by URL per file, in order. */
  method PostUrlImages(uris: seq<VsUri>) returns (posted: seq<Message>)
    ensures posted == UrlImages(uris)
  {
    posted := [];
    var i := 0;
    while i < |uris|
      invariant 0 <= i <= |uris|
      invariant posted == UrlImages(uris[..i])
    {
      assert UrlImages(uris[..i + 1]) == UrlImages(uris[..i]) + [UrlImage(uris[i])];
      posted := posted + [UrlImage(uris[i])];
      i := i + 1;
    }
    assert uris[..i] == uris;
  }

  /**
   * A panel's `ready` listener fed a sequence of messages posts its reply
   * exactly once, at the first `ready`, however often the page reloads.
   */
  method ReplayReady(target: Target, config: Config, events: seq<Message>) returns (sent: seq<Message>)
    ensures sent == if Ready in events then ReadyReply(target, config) else []
  {
    var l := new ReadyListener(target, config);
    var i := 0;
    while i < |events|
      invariant 0 <= i <= |events|
      invariant l.target == target && l.config == config
      invariant l.isImageSent == (Ready in events[..i])
      invariant l.sent == if Ready in events[..i] then ReadyReply(target, config) else []
    {
      assert events[..i + 1] == events[..i] + [events[i]];
      l.OnDidReceiveMessage(events[i]);
      i := i + 1;
    }
    assert events[..i] == events;
    sent := l.sent;
  }

  function IsDcmPath(path: string): bool
  {
    EndsWith(Lower(path), ".dcm")
  }

  /** A picked image: a DICOM file by data, anything else by URL. */
  function PickedImage(u: VsUri): Message
  {
    if IsDcmPath(u.path) then DataImage(u) else UrlImage(u)
  }

  function PickedImages(uris: seq<VsUri>): (r: seq<Message>)
    ensures |r| == |uris|
    ensures forall i :: 0 <= i < |uris| ==> r[i] == PickedImage(uris[i])
  {
    seq(|uris|, i requires 0 <= i < |uris| => PickedImage(uris[i]))
  }

  /**
   * `addCommonListeners`: the reply to one request from the page. `picked`
   * is what the open dialog returned (None when dismissed), `listing` the
   * chosen folder's files. Other messages get no reply here.
   */
  function CommonReply(e: Message, picked: Option<seq<VsUri>>, listing: seq<string>): seq<Message>
  {
    match e
      case AddOverlayRequest(kind, index) =>
        if picked.Some? && |picked.value| > 0
        then [Overlay(kind, OverlayBody(FileUrl(picked.value[0]), NoData, index))]
        else []
      case AddImagesRequest =>
        if picked.Some? then [InitCanvas(Count(|picked.value|))] + PickedImages(picked.value) else []
      case AddDcmFolderRequest =>
        if picked.Some? && |picked.value| > 0 then DcmFolderMessages(picked.value[0], listing) else []
      case _ => []
  }

  /** The listener of `addCommonListeners`, posting the picked images one by one. */
  method CommonListener(e: Message, picked: Option<seq<VsUri>>, listing: seq<string>) returns (posted: seq<Message>)
    ensures posted == CommonReply(e, picked, listing)
  {
    posted := [];
    match e {
      case AddOverlayRequest(kind, index) =>
        if picked.Some? && |picked.value| > 0 {
          posted := [Overlay(kind, OverlayBody(FileUrl(picked.value[0]), NoData, index))];
        }
      case AddImagesRequest =>
        if picked.Some? {
          var uris := picked.value;
          posted := [InitCanvas(Count(|uris|))];
          var i := 0;
          while i < |uris|
            invariant 0 <= i <= |uris|
            invariant posted == [InitCanvas(Count(|uris|))] + PickedImages(uris[..i])
          {
            assert PickedImages(uris[..i + 1]) == PickedImages(uris[..i]) + [PickedImage(uris[i])];
            if IsDcmPath(uris[i].path) {
              posted := posted + [DataImage(uris[i])];
            } else {
              posted := posted + [UrlImage(uris[i])];
            }
            i := i + 1;
          }
          assert uris[..i] == uris;
        }
      case AddDcmFolderRequest =>
        if picked.Some? && |picked.value| > 0 {
          posted := DcmFolderMessages(picked.value[0], listing);
        }
      case _ =>
    }
  }

  /**
   * The overlay reply echoes the requested type and image index with the
   * picked file's URL; an images reply announces as many canvases as files
   * were picked (zero for an empty pick) and sends each `.dcm` file, in any
   * letter case, by data and every other one by URL; nothing is posted for
   * a dismissed dialog or a message that is not a request.
   */
  lemma CommonReplyCases(e: Message, picked: Option<seq<VsUri>>, listing: seq<string>)
    ensures picked.None? ==> CommonReply(e, picked, listing) == []
    ensures !(e.AddOverlayRequest? || e.AddImagesRequest? || e.AddDcmFolderRequest?) ==> CommonReply(e, picked, listing) == []
    ensures e.AddOverlayRequest? && picked.Some? && |picked.value| > 0 ==>
      var r := CommonReply(e, picked, listing);
      && |r| == 1 && r[0].Overlay? && r[0].kind == e.overlayKind && r[0].overlay.index == e.imageIndex
      && r[0].overlay.uri == WebviewOrigin + picked.value[0].path
    ensures e.AddImagesRequest? && picked.Some? ==>
      var r := CommonReply(e, picked, listing);
      var uris := picked.value;
      && |r| == |uris| + 1 && r[0] == InitCanvas(Count(|uris|))
      && forall i :: 0 <= i < |uris| ==>
           && r[i + 1].AddImage?
           && (EndsWith(Lower(uris[i].path), ".dcm") <==> r[i + 1].image.data == FileBytes(uris[i].path))
           && (!EndsWith(Lower(uris[i].path), ".dcm") ==> r[i + 1].image.uri == WebviewUrl(uris[i].path))
  {
  }

  /**
   * Which way `resolveCustomEditor` sends the document: by data for a
   * DICOM or MINC file (any letter case) or a file outside the workspace,
   * otherwise by URL.
   */
  function DocumentImage(doc: VsUri, accessible: bool): Message
  {
    var lower := Lower(doc.path);
    if EndsWith(lower, ".dcm") || EndsWith(lower, ".mnc") || !accessible then DataImage(doc) else UrlImage(doc)
  }

  /** The URL is used only for an accessible file that is neither DICOM nor MINC; data always names the document. */
  lemma DocumentImageChoice(doc: VsUri, accessible: bool)
    ensures DocumentImage(doc, accessible).image.data.NoData?
      <==> accessible && !EndsWith(Lower(doc.path), ".dcm") && !EndsWith(Lower(doc.path), ".mnc")
    ensures DocumentImage(doc, accessible).image.data.FileBytes? ==> DocumentImage(doc, accessible).image.data.path == doc.path
  {
  }

  /** The `ready` listener of a custom editor: unlike the command panels, every `ready` posts again. */
  class EditorListener {
    const document: VsUri
    const config: Config
    const folders: Option<seq<string>>
    var sent: seq<Message>

    constructor (document: VsUri, config: Config, folders: Option<seq<string>>)
      ensures this.document == document && this.config == config && this.folders == folders
      ensures sent == []
    {
      this.document := document;
      this.config := config;
      this.folders := folders;
      sent := [];
    }

    method OnDidReceiveMessage(e: Message)
      modifies this
      ensures sent == old(sent) + (if e.Ready? then
        [SettingsMessage(config), DocumentImage(document, Accessible(folders, document.path))] else [])
    {
      if e.Ready? {
        sent := sent + [SettingsMessage(config)];
        var lower := Lower(document.path);
        var accessible := IsUriAccessible(folders, document.path);
        if EndsWith(lower, ".dcm") || EndsWith(lower, ".mnc") || !accessible {
          sent := sent + [DataImage(document)];
        } else {
          sent := sent + [UrlImage(document)];
        }
      }
    }
  }

  /**
   * `resolveCustomEditor`: the panel is registered under the document's
   * URI in the provider's collection and gets a fresh `ready` listener.
   */
  method ResolveCustomEditor(webviews: WebviewCollection, document: VsUri, panel: nat, config: Config,
                             folders: Option<seq<string>>) returns (l: EditorListener)
    modifies webviews
    ensures webviews.entries == old(webviews.entries) + [Entry(document.text, panel)]
    ensures fresh(l) && l.document == document && l.config == config && l.folders == folders && l.sent == []
  {
    webviews.Add(document, panel);
    l := new EditorListener(document, config, folders);
  }

  /** The number of `ready` messages in a sequence. */
  function ReadyCount(events: seq<Message>): (r: nat)
    ensures r <= |events|
    ensures r == 0 <==> Ready !in events
  {
    if |events| == 0 then 0
    else ReadyCount(events[..|events| - 1]) + (if events[|events| - 1] == Ready then 1 else 0)
  }

  function Repeat(ms: seq<Message>, n: nat): (r: seq<Message>)
    ensures |r| == n * |ms|
  {
    if n == 0 then [] else Repeat(ms, n - 1) + ms
  }

  /** A custom editor posts the settings and the document once per `ready`, so once per page reload. */
  method ReplayEditor(document: VsUri, config: Config, folders: Option<seq<string>>, events: seq<Message>)
    returns (sent: seq<Message>)
    ensures sent == Repeat([SettingsMessage(config), DocumentImage(document, Accessible(folders, document.path))],
                           ReadyCount(events))
  {
    var l := new EditorListener(document, config, folders);
    var reply := [SettingsMessage(config), DocumentImage(document, Accessible(folders, document.path))];
    var i := 0;
    while i < |events|
      invariant 0 <= i <= |events|
      invariant l.document == document && l.config == config && l.folders == folders
      invariant l.sent == Repeat(reply, ReadyCount(events[..i]))
    {
      assert events[..i + 1][..i] == events[..i];
      l.OnDidReceiveMessage(events[i]);
      i := i + 1;
    }
    assert events[..i] == events;
    sent := l.sent;
  }
}
