/**
 * The editor extension of the first release (`NiiVueEditorProvider` at the
 * repository root): the same panels and requests as the current
 * extension, but every file is sent as data, the settings have five
 * fields, and every `ready` is answered again.
 */
module LegacyHost {
  import opened Common
  import opened Messages
  import opened HostCommon
  import V = VscodeHost

  /** `postInitSettings` of this release: five flags, each as set or its default. */
  function SettingsMessage(c: Config): (r: Message)
    ensures r.InitSettings? && r.settings.LegacyEditorSettings?
  {
    InitSettings(LegacyEditorSettings(
      GetFlag(c, "showCrosshairs", true),
      GetFlag(c, "interpolation", true),
      GetFlag(c, "colorbar", false),
      GetFlag(c, "radiologicalConvention", false),
      GetFlag(c, "zoomDragMode", false)))
  }

  /**
   * The five flags read the same keys with the same defaults as the
   * current release's settings: for any configuration they are the first
   * five fields of the current message.
   */
  lemma SettingsAgree(c: Config)
    ensures var l := SettingsMessage(c).settings;
      var s := V.SettingsMessage(c).settings;
      && l.showCrosshairs == s.showCrosshairs && l.interpolation == s.interpolation
      && l.colorbar == s.colorbar && l.radiologicalConvention == s.radiologicalConvention
      && l.zoomDragMode == s.zoomDragMode
    ensures SettingsMessage(Config(map[], map[])) == InitSettings(LegacyEditorSettings(true, true, false, false, false))
  {
  }

  /** One data-carrying `addImage` per URI, in order. */
  function DataImages(uris: seq<VsUri>): (r: seq<Message>)
    ensures |r| == |uris|
    ensures forall i :: 0 <= i < |uris| ==> r[i] == DataImage(uris[i])
  {
    seq(|uris|, i requires 0 <= i < |uris| => DataImage(uris[i]))
  }

  lemma {:induction false} DataImagesCount(uris: seq<VsUri>)
    ensures CountAddImage(DataImages(uris)) == |uris|
  {
    if |uris| > 0 {
      assert DataImages(uris)[..|uris| - 1] == DataImages(uris[..|uris| - 1]);
      DataImagesCount(uris[..|uris| - 1]);
    }
  }

  /**
   * The messages each `ready` gets: a single file by its URI string alone,
   * a DICOM folder as in the current release, a comparison with each file
   * read and sent as data.
   */
  function ReadyReply(t: V.Target, c: Config): seq<Message>
  {
    match t
      case SingleFile(u) => [SettingsMessage(c), AddImage(ImageBody(Plain(u.text), NoData))]
      case DcmFolder(f, listing) => [SettingsMessage(c)] + DcmFolderMessages(f, listing)
      case CompareFiles(uris) => [SettingsMessage(c), InitCanvas(Count(|uris|))] + DataImages(uris)
  }

  /**
   * The two releases post the same kind of sequence for a target: messages
   * in the same places, the same canvas count, and, for a comparison, the
   * same files in the same order, sent here by data instead of by URL.
   */
  lemma ReadyRepliesCorrespond(t: V.Target, c: Config)
    ensures var r := ReadyReply(t, c);
      var s := V.ReadyReply(t, c);
      && |r| == |s|
      && (forall i :: 1 <= i < |r| ==> r[i].AddImage? == s[i].AddImage? && r[i].InitCanvas? == s[i].InitCanvas?)
      && (t.DcmFolder? ==> r[1..] == s[1..])
      && (t.CompareFiles? ==>
            && r[1] == s[1]
            && forall i :: 0 <= i < |t.uris| ==> r[i + 2] == DataImage(t.uris[i]) && s[i + 2] == V.UrlImage(t.uris[i]))
  {
    match t {
      case SingleFile(u) =>
      case DcmFolder(f, listing) =>
        FolderRepliesCorrespond(f, listing, c);
      case CompareFiles(uris) =>
        CompareRepliesCorrespond(uris, c);
    }
  }

  /** For a folder both releases post the settings, then the very same folder message. */
  lemma FolderRepliesCorrespond(f: VsUri, listing: seq<string>, c: Config)
    ensures ReadyReply(V.DcmFolder(f, listing), c)[1..] == DcmFolderMessages(f, listing)
    ensures V.ReadyReply(V.DcmFolder(f, listing), c)[1..] == DcmFolderMessages(f, listing)
  {
    assert ([SettingsMessage(c)] + DcmFolderMessages(f, listing))[1..] == DcmFolderMessages(f, listing);
    assert ([V.SettingsMessage(c)] + DcmFolderMessages(f, listing))[1..] == DcmFolderMessages(f, listing);
  }

  /** For a comparison both releases post the settings, the same canvas count, then one image per file. */
  lemma CompareRepliesCorrespond(uris: seq<VsUri>, c: Config)
    ensures var r := ReadyReply(V.CompareFiles(uris), c);
      var s := V.ReadyReply(V.CompareFiles(uris), c);
      && |r| == |s| == |uris| + 2
      && r[1] == s[1] == InitCanvas(Count(|uris|))
      && forall i :: 0 <= i < |uris| ==> r[i + 2] == DataImage(uris[i]) && s[i + 2] == V.UrlImage(uris[i])
  {
    AfterHead(SettingsMessage(c), InitCanvas(Count(|uris|)), DataImages(uris));
    AfterHead(V.SettingsMessage(c), InitCanvas(Count(|uris|)), V.UrlImages(uris));
  }

  /** The `ready` listener of a panel opened by a command: it answers every `ready`. */
  class ReadyListener {
    const target: V.Target
    const config: Config
    var sent: seq<Message>

    constructor (target: V.Target, config: Config)
      ensures this.target == target && this.config == config && sent == []
    {
      this.target := target;
      this.config := config;
      sent := [];
    }

    method OnDidReceiveMessage(e: Message)
      modifies this`sent
      ensures sent == old(sent) + (if e.Ready? then ReadyReply(target, config) else [])
    {
      if e.Ready? {
        var reply := [SettingsMessage(config)];
        match target {
          case SingleFile(u) =>
            reply := reply + [AddImage(ImageBody(Plain(u.text), NoData))];
          case DcmFolder(f, listing) =>
            reply := reply + DcmFolderMessages(f, listing);
          case CompareFiles(uris) =>
            var images := PostDataImages(uris);
            reply := reply + [InitCanvas(Count(|uris|))] + images;
        }
        sent := sent + reply;
      }
    }
  }

  /** `for (const uri of uris)`: each file read in turn and sent as data, in order. */
  method PostDataImages(uris: seq<VsUri>) returns (posted: seq<Message>)
    ensures posted == DataImages(uris)
  {
    posted := [];
    var i := 0;
    while i < |uris|
      invariant 0 <= i <= |uris|
      invariant posted == DataImages(uris[..i])
    {
      assert DataImages(uris[..i + 1]) == DataImages(uris[..i]) + [DataImage(uris[i])];
      posted := posted + [DataImage(uris[i])];
      i := i + 1;
    }
    assert uris[..i] == uris;
  }

  /** Without the current release's `isImageSent` guard, every page reload posts the whole reply again. */
  method ReplayReady(target: V.Target, config: Config, events: seq<Message>) returns (sent: seq<Message>)
    ensures sent == V.Repeat(ReadyReply(target, config), V.ReadyCount(events))
  {
    var l := new ReadyListener(target, config);
    var i := 0;
    while i < |events|
      invariant 0 <= i <= |events|
      invariant l.target == target && l.config == config
      invariant l.sent == V.Repeat(ReadyReply(target, config), V.ReadyCount(events[..i]))
    {
      assert events[..i + 1][..i] == events[..i];
      ghost var k := V.ReadyCount(events[..i]);
      assert V.ReadyCount(events[..i + 1]) == k + (if events[i].Ready? then 1 else 0);
      l.OnDidReceiveMessage(events[i]);
      assert V.Repeat(ReadyReply(target, config), k + 1) == V.Repeat(ReadyReply(target, config), k) + ReadyReply(target, config);
      i := i + 1;
    }
    assert events[..i] == events;
    sent := l.sent;
  }

  /**
   * `addCommonListeners` of this release: replies like the current one's,
   * but the overlay and every picked image are read and sent as data.
   */
  function CommonReply(e: Message, picked: Option<seq<VsUri>>, listing: seq<string>): seq<Message>
  {
    match e
      case AddOverlayRequest(kind, index) =>
        if picked.Some? && |picked.value| > 0
        then [Overlay(kind, OverlayBody(picked.value[0].text, FileBytes(picked.value[0].path), index))]
        else []
      case AddImagesRequest =>
        if picked.Some? then [InitCanvas(Count(|picked.value|))] + DataImages(picked.value) else []
      case AddDcmFolderRequest =>
        if picked.Some? && |picked.value| > 0 then DcmFolderMessages(picked.value[0], listing) else []
      case _ => []
  }

  method CommonListener(e: Message, picked: Option<seq<VsUri>>, listing: seq<string>) returns (posted: seq<Message>)
    ensures posted == CommonReply(e, picked, listing)
  {
    posted := [];
    match e {
      case AddOverlayRequest(kind, index) =>
        if picked.Some? && |picked.value| > 0 {
          posted := [Overlay(kind, OverlayBody(picked.value[0].text, FileBytes(picked.value[0].path), index))];
        }
      case AddImagesRequest =>
        if picked.Some? {
          var images := PostDataImages(picked.value);
          posted := [InitCanvas(Count(|picked.value|))] + images;
        }
      case AddDcmFolderRequest =>
        if picked.Some? && |picked.value| > 0 {
          posted := DcmFolderMessages(picked.value[0], listing);
        }
      case _ =>
    }
  }

  /**
   * The two releases answer the same requests with the same number of
   * messages: the overlay reply echoes the same type and index, the images
   * reply announces the same canvas count, a `.dcm` image gets the very
   * same message, and the folder reply is identical.
   */
  lemma CommonRepliesCorrespond(e: Message, picked: Option<seq<VsUri>>, listing: seq<string>)
    ensures var r := CommonReply(e, picked, listing);
      var s := V.CommonReply(e, picked, listing);
      && |r| == |s|
      && (e.AddOverlayRequest? && |r| == 1 ==>
            r[0].kind == s[0].kind == e.overlayKind && r[0].overlay.index == s[0].overlay.index == e.imageIndex)
      && (e.AddImagesRequest? && picked.Some? ==>
            && r[0] == s[0]
            && forall i :: 0 <= i < |picked.value| && V.IsDcmPath(picked.value[i].path) ==> r[i + 1] == s[i + 1])
      && (e.AddDcmFolderRequest? ==> r == s)
  {
  }

  /** The custom editor's `ready` listener: the settings and the document's contents, read when it was opened. */
  class EditorListener {
    const document: VsUri
    const config: Config
    var sent: seq<Message>

    constructor (document: VsUri, config: Config)
      ensures this.document == document && this.config == config && sent == []
    {
      this.document := document;
      this.config := config;
      sent := [];
    }

    method OnDidReceiveMessage(e: Message)
      modifies this
      ensures sent == old(sent) + (if e.Ready? then [SettingsMessage(config), DataImage(document)] else [])
    {
      if e.Ready? {
        sent := sent + [SettingsMessage(config), DataImage(document)];
      }
    }
  }

  /** `resolveCustomEditor`: the panel is registered under the document's URI and gets a `ready` listener. */
  method ResolveCustomEditor(webviews: WebviewCollection, document: VsUri, panel: nat, config: Config)
    returns (l: EditorListener)
    modifies webviews
    ensures webviews.entries == old(webviews.entries) + [Entry(document.text, panel)]
    ensures fresh(l) && l.document == document && l.config == config && l.sent == []
  {
    webviews.Add(document, panel);
    l := new EditorListener(document, config);
  }
}
