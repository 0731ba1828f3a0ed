/**
 * The requests the viewer page makes when the user asks for more images:
 * inside the editor's webview they go to the host as one request message;
 * in a browser the page picks the files itself and posts the resulting
 * image messages to its own listener. The same in the three listener files
 * except for the DICOM-folder request.
 */
module PageRequests {
  import opened Common
  import opened Messages

  /** Messages to the host and messages the page posts to itself, each in posting order. */
  datatype Sends = Sends(toHost: seq<Message>, toSelf: seq<Message>)

  /** The body of an `addImage` for a file the page read itself (its contents named by the file name). */
  function FileImage(name: string): Message
  {
    AddImage(ImageBody(Plain(name), FileBytes(name)))
  }

  /** One `addImage` per file, in order. */
  function FileImages(names: seq<string>): (r: seq<Message>)
    ensures |r| == |names|
    ensures forall i :: 0 <= i < |names| ==> r[i] == FileImage(names[i])
  {
    seq(|names|, i requires 0 <= i < |names| => FileImage(names[i]))
  }

  lemma {:induction false} FileImagesCount(names: seq<string>)
    ensures CountAddImage(FileImages(names)) == |names|
  {
    if |names| > 0 {
      var init := names[..|names| - 1];
      assert FileImages(names)[..|names| - 1] == FileImages(init);
      FileImagesCount(init);
    }
  }

  /**
   * `addOverlayEvent(imageIndex, type)`: a request to the host, or, with the
   * chosen file (none when the picker is dismissed), a message of the
   * requested type for that image index.
   */
  function OverlayRequest(imageIndex: int, t: string, hasHost: bool, file: Option<string>): (r: Sends)
  {
    if hasHost then Sends([AddOverlayRequest(t, imageIndex)], [])
    else if file.None? then Sends([], [])
    else Sends([], [Overlay(t, OverlayBody(file.value, FileBytes(file.value), imageIndex))])
  }

  /**
   * The overlay request names the image it is for and the type asked for,
   * on whichever side it goes, and sends exactly one message unless the
   * picker is dismissed.
   */
  lemma OverlayRequestEchoes(imageIndex: int, t: string, hasHost: bool, file: Option<string>)
    ensures var r := OverlayRequest(imageIndex, t, hasHost, file);
      && (hasHost ==>
            && r.toSelf == [] && |r.toHost| == 1
            && r.toHost[0].AddOverlayRequest? && r.toHost[0].overlayKind == t && r.toHost[0].imageIndex == imageIndex)
      && (!hasHost ==> r.toHost == [] && |r.toSelf| == (if file.Some? then 1 else 0))
      && (!hasHost && file.Some? ==>
            && r.toSelf[0].Overlay? && r.toSelf[0].kind == t && r.toSelf[0].overlay.index == imageIndex
            && r.toSelf[0].overlay.uri == file.value)
  {
  }

  /**
   * `addImagesEvent`: a request to the host, or, for a non-empty choice of
   * files, `initCanvas` for that many canvases followed by one `addImage`
   * per file in order.
   */
  function ImagesRequest(hasHost: bool, files: seq<string>): (r: Sends)
  {
    if hasHost then Sends([AddImagesRequest], [])
    else if |files| == 0 then Sends([], [])
    else Sends([], [InitCanvas(Count(|files|))] + FileImages(files))
  }

  /** Canvases are announced before any image, and there are exactly as many images as canvases. */
  lemma ImagesRequestAnnouncesCanvases(files: seq<string>)
    requires |files| > 0
    ensures var r := ImagesRequest(false, files).toSelf;
      && r[0] == InitCanvas(Count(|files|))
      && CountAddImage(r) == |files|
      && forall i :: 0 <= i < |files| ==> r[i + 1] == FileImage(files[i])
  {
    FileImagesCount(files);
    CountAddImageAppend([InitCanvas(Count(|files|))], FileImages(files));
    assert [InitCanvas(Count(|files|))][..0] == [];
  }

  /**
   * The React page's `addDcmFolderEvent`: a request to the host, or one
   * `addImage` holding the whole folder: the list of names as its URI and
   * the list of contents as its data, posted even for an empty folder.
   */
  function DcmFolderRequest(hasHost: bool, files: seq<string>): (r: Sends)
    ensures hasHost ==> r == Sends([AddDcmFolderRequest], [])
    ensures !hasHost ==> r.toHost == [] && |r.toSelf| == 1 && CountAddImage(r.toSelf) == 1
    ensures !hasHost ==> r.toSelf[0] == AddImage(ImageBody(UriList(files), FileList(files)))
  {
    if hasHost then Sends([AddDcmFolderRequest], [])
    else
      var m := AddImage(ImageBody(UriList(files), FileList(files)));
      assert CountAddImage([m]) == CountAddImage([]) + 1 by { assert [m][..0] == []; }
      Sends([], [m])
  }

  /**
   * The older page's `addDcmFolderEvent`: it asks the host for images (the
   * same request as `addImagesEvent`), or posts `addDcmFiles` with the
   * chosen files.
   */
  function SrcDcmFolderRequest(hasHost: bool, files: seq<string>): (r: Sends)
  {
    if hasHost then Sends([AddImagesRequest], []) else Sends([], [AddDcmFiles(files)])
  }

  /** Inside the webview the older page's folder request cannot be told from an images request. */
  lemma SrcDcmFolderIsImagesRequest(files: seq<string>, others: seq<string>)
    ensures SrcDcmFolderRequest(true, files) == ImagesRequest(true, others)
    ensures SrcDcmFolderRequest(false, files).toSelf == [AddDcmFiles(files)]
  {
  }
}
