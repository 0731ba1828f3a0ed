/**
 * The postMessage vocabulary spoken between the hosts (editor extension,
 * Streamlit pages) and the embedded viewer page.
 */
module Messages {
  import opened Common

  /** Where an image comes from, as carried in a message body's `uri`. */
  datatype Uri =
    | Plain(s: string)            // a file name or `uri.toString()`
    | WebviewUrl(path: string)    // the webview URL the host derives for a local file
    | UriList(items: seq<string>) // a DICOM series: one name per file

  /** The origin under which the webview serves local files (`asWebviewUri`). */
  const WebviewOrigin := "https://file+.vscode-resource.vscode-cdn.net"

  /** A single URI as the page sees it: the string itself, or the full webview URL. */
  function UriText(u: Uri): (r: string)
    requires !u.UriList?
    ensures u.WebviewUrl? ==> r == WebviewOrigin + u.path
  {
    if u.Plain? then u.s else WebviewOrigin + u.path
  }

  /** The `data` of a message body. File contents the host reads are named by path. */
  datatype Data =
    | NoData
    | Bytes(bytes: seq<byte>)
    | FileBytes(path: string)
    | FileList(paths: seq<string>)
    | Text(text: string)

  datatype ImageBody = ImageBody(uri: Uri, data: Data)

  datatype OverlayBody = OverlayBody(uri: string, data: Data, index: int)

  /** The body of `initCanvas`: `{ n: k }`, or a bare number (whose `.n` is undefined). */
  datatype CanvasBody = Count(n: int) | BareNumber(value: int)

  /** What the listener reads as `body.n`. */
  function CanvasN(b: CanvasBody): (r: Option<int>)
    ensures r.Some? <==> b.Count?
  {
    match b
      case Count(n) => Some(n)
      case BareNumber(_) => None
  }

  datatype Settings =
    | EditorSettings(showCrosshairs: bool, interpolation: bool, colorbar: bool,
                     radiologicalConvention: bool, zoomDragMode: bool,
                     defaultVolumeColormap: string, defaultOverlayColormap: string)
    | LegacyEditorSettings(showCrosshairs: bool, interpolation: bool, colorbar: bool,
                           radiologicalConvention: bool, zoomDragMode: bool)
    | StreamlitSettings(show3Dcrosshair: bool, backColor: seq<real>, textHeight: real)

  /** Answers to `debugRequest`: a number, or the first volume (whose window the viewer computes). */
  datatype DebugValue = Number(count: nat) | MinMaxOf(volumeName: string)

  datatype Message =
    | Ready
    | InitSettings(settings: Settings)
    | InitCanvas(canvas: CanvasBody)
    | AddImage(image: ImageBody)
    | Overlay(kind: string, overlay: OverlayBody)  // 'overlay', 'addMeshOverlay', ... by type name
    | AddDcmFiles(files: seq<string>)
    | DebugRequest(query: string)
    | DebugAnswer(answer: DebugValue)
    | AddOverlayRequest(overlayKind: string, imageIndex: int)
    | AddImagesRequest
    | AddDcmFolderRequest
    | Unknown(typeName: string)

  /** Number of `addImage` messages in a sequence. */
  function CountAddImage(ms: seq<Message>): (r: nat)
    ensures r <= |ms|
  {
    if |ms| == 0 then 0
    else CountAddImage(ms[..|ms| - 1]) + (if ms[|ms| - 1].AddImage? then 1 else 0)
  }

  /** After a two-message head, message `i + 2` is message `i` of the rest. */
  lemma AfterHead(a: Message, b: Message, rest: seq<Message>)
    ensures |[a, b] + rest| == |rest| + 2 && ([a, b] + rest)[1] == b
    ensures forall i :: 0 <= i < |rest| ==> ([a, b] + rest)[i + 2] == rest[i]
  {
  }

  /** Two messages that are not images count none. */
  lemma CountTwo(a: Message, b: Message)
    requires !a.AddImage? && !b.AddImage?
    ensures CountAddImage([a, b]) == 0
  {
    assert [a, b][..1] == [a];
    assert [a][..0] == [];
  }

  lemma {:induction false} CountAddImageAppend(a: seq<Message>, b: seq<Message>)
    ensures CountAddImage(a + b) == CountAddImage(a) + CountAddImage(b)
    decreases |b|
  {
    if |b| == 0 {
      assert a + b == a;
    } else {
      assert (a + b)[..|a + b| - 1] == a + b[..|b| - 1];
      CountAddImageAppend(a, b[..|b| - 1]);
    }
  }
}
