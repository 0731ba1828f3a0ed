/**
 * The React viewer page's message listener (`handleMessage`): mesh
 * overlays, volume overlays, image slots, canvas allocation and debug
 * queries, each message followed by a rerender of the viewer array.
 */
module ReactEvents {
  import opened Common
  import opened Messages
  import opened ViewerSlots
  import opened MeshLayers
  import opened ReadyState
  import RU = ReactUtility

  /** What `handleMessage` does with a message: true, false, or a synchronous throw. */
  datatype Outcome = Handled | NotHandled | Threw(error: string)

  /** The text of the TypeError raised by reading a field of a missing viewer. */
  const MissingViewer := "nvArray.value[index] is undefined"

  /** The message types the switch has a case for. */
  predicate Recognised(m: Message)
  {
    match m
      case Overlay(t, _) => t in MeshTypes || t == "overlay"
      case AddImage(_) => true
      case InitCanvas(_) => true
      case DebugRequest(_) => true
      case _ => false
  }

  /**
   * `addOverlay`: an image-type name becomes a volume with the page's
   * default overlay colormap and opacity 0.5; any other name is read as a
   * mesh with opacity 0.5.
   */
  function OverlayOnSlot(s: Slot, body: OverlayBody, overlayColormap: string): (r: Slot)
    ensures RU.IsImageType(body.uri).Some? ==>
      r == s.(volumes := s.volumes + [Volume(body.uri, Some(overlayColormap), Some(0.5))])
    ensures RU.IsImageType(body.uri).None? ==>
      r == s.(meshes := s.meshes + [Mesh(body.uri, Some(0.5), [], [])])
  {
    if RU.IsImageType(body.uri).Some? then s.(volumes := s.volumes + [Volume(body.uri, Some(overlayColormap), Some(0.5))])
    else s.(meshes := s.meshes + [Mesh(body.uri, Some(0.5), [], [])])
  }

  /**
   * The effect of an overlay message (type `t`) on the array: the addressed
   * slot changes as the overlay functions say, and a missing slot makes the
   * asynchronous handler reject. Returns the new slots and the rejection.
   */
  function OverlayMessage(slots: seq<Slot>, t: string, body: OverlayBody, overlayColormap: string,
                          fetchOk: bool, readOk: bool): (seq<Slot>, Option<string>)
  {
    if !(0 <= body.index < |slots|) then (slots, Some(MissingViewer))
    else if t == "overlay" then (slots[body.index := OverlayOnSlot(slots[body.index], body, overlayColormap)], None)
    else
      var (s, err) := ReactMeshOverlay(slots[body.index], body, t, fetchOk, readOk);
      (slots[body.index := s], err)
  }

  /**
   * An overlay message changes at most the slot it addresses and never the
   * number of slots; addressing a missing slot changes nothing and rejects.
   * A volume overlay never fails.
   */
  lemma OverlayMessageTouchesOneSlot(slots: seq<Slot>, t: string, body: OverlayBody, overlayColormap: string,
                                     fetchOk: bool, readOk: bool)
    ensures var (r, err) := OverlayMessage(slots, t, body, overlayColormap, fetchOk, readOk);
      && |r| == |slots|
      && (forall i :: 0 <= i < |slots| && i != body.index ==> r[i] == slots[i])
      && (!(0 <= body.index < |slots|) ==> r == slots && err == Some(MissingViewer))
      && (0 <= body.index < |slots| && t == "overlay" ==> err.None?)
  {
  }

  /**
   * `handleDebugMessage`: the answer posted for a query, none for an
   * unknown query, or the TypeError raised when the first viewer (or its
   * first volume) is missing.
   */
  function DebugReply(slots: seq<Slot>, query: string): (r: Result<Option<Message>>)
  {
    if query == "getNCanvas" then Ok(Some(DebugAnswer(Number(|slots|))))
    else if query == "getMinMaxOfFirstImage" then
      if |slots| == 0 || |slots[0].volumes| == 0 then Err("nvArray.value[0].volumes[0] is undefined")
      else Ok(Some(DebugAnswer(MinMaxOf(slots[0].volumes[0].name))))
    else if query == "getNVolumes" then
      if |slots| == 0 then Err("nvArray.value[0] is undefined")
      else Ok(Some(DebugAnswer(Number(|slots[0].volumes|))))
    else Ok(None)
  }

  /**
   * `getNCanvas` always answers with the number of viewers; the two
   * first-viewer queries throw exactly when what they read is missing; any
   * other query posts nothing.
   */
  lemma DebugReplyCases(slots: seq<Slot>, query: string)
    ensures query == "getNCanvas" ==> DebugReply(slots, query) == Ok(Some(DebugAnswer(Number(|slots|))))
    ensures query == "getNVolumes" ==>
      (DebugReply(slots, query).Err? <==> |slots| == 0)
      && (|slots| > 0 ==> DebugReply(slots, query) == Ok(Some(DebugAnswer(Number(|slots[0].volumes|)))))
    ensures query == "getMinMaxOfFirstImage" ==>
      (DebugReply(slots, query).Err? <==> |slots| == 0 || |slots[0].volumes| == 0)
    ensures query !in {"getNCanvas", "getMinMaxOfFirstImage", "getNVolumes"} ==> DebugReply(slots, query) == Ok(None)
  {
  }

  /** The slice type after `initCanvas`: AXIAL when an empty array gets more than one canvas. */
  function InitSliceType(current: SliceType, length: nat, n: Option<int>): (r: SliceType)
    ensures r == Axial || r == current
    ensures r != current ==> length == 0
  {
    if length == 0 && n.Some? && n.value > 1 then Axial else current
  }

  /** `for (let i = 0; i < n; i++)`: an undefined or non-positive count makes no turn. */
  function GrowCount(n: Option<int>): (r: nat)
    ensures n.None? ==> r == 0
    ensures n.Some? && n.value > 0 ==> r == n.value
  {
    if n.Some? && n.value > 0 then n.value else 0
  }

  /**
   * `handleMessage(message, appProps)`. `overlayColormap` is the page's
   * default overlay colormap setting; `fetchOk` and `readOk` are the
   * outcomes of the mesh-layer fetch and read.
   */
  method HandleMessage(va: ViewerArray, m: Message, overlayColormap: string, fetchOk: bool, readOk: bool)
    returns (outcome: Outcome)
    modifies va
    ensures !Recognised(m) ==> outcome == NotHandled
    ensures outcome.Threw? <==> m.DebugRequest? && DebugReply(old(va.slots), m.query).Err?
    ensures outcome.NotHandled? || outcome.Threw? ==>
      && va.slots == old(va.slots) && va.sliceType == old(va.sliceType) && va.posted == old(va.posted)
      && va.rejections == old(va.rejections) && va.rerenders == old(va.rerenders)
    ensures outcome.Handled? ==> va.rerenders == old(va.rerenders) + 1
    ensures !m.InitCanvas? ==> va.sliceType == old(va.sliceType)
    ensures !m.DebugRequest? ==> va.posted == old(va.posted)
    ensures !(Recognised(m) && m.Overlay?) ==> va.rejections == old(va.rejections)
    ensures m.AddImage? ==> outcome == Handled && va.slots == AfterAddImage(old(va.slots), m.image)
    ensures m.InitCanvas? ==>
      && outcome == Handled
      && va.slots == old(va.slots) + FreshSlots(GrowCount(CanvasN(m.canvas)))
      && va.sliceType == InitSliceType(old(va.sliceType), |old(va.slots)|, CanvasN(m.canvas))
    ensures m.Overlay? && Recognised(m) ==>
      && outcome == Handled
      && var (r, err) := OverlayMessage(old(va.slots), m.kind, m.overlay, overlayColormap, fetchOk, readOk);
         va.slots == r && va.rejections == old(va.rejections) + (if err.Some? then [err.value] else [])
    ensures m.DebugRequest? && DebugReply(old(va.slots), m.query).Ok? ==>
      && outcome == Handled
      && va.slots == old(va.slots)
      && var reply := DebugReply(old(va.slots), m.query).value;
         va.posted == old(va.posted) + (if reply.Some? then [reply.value] else [])
  {
    if !Recognised(m) {
      return NotHandled;
    }
    match m {
      case Overlay(t, body) =>
        var (r, err) := OverlayMessage(va.slots, t, body, overlayColormap, fetchOk, readOk);
        va.slots := r;
        if err.Some? {
          va.rejections := va.rejections + [err.value];
        }
      case AddImage(body) =>
        var k := va.ClaimSlot();
        va.FillSlot(k, body);
      case InitCanvas(c) =>
        var n := CanvasN(c);
        va.sliceType := InitSliceType(va.sliceType, |va.slots|, n);
        va.GrowBy(GrowCount(n));
      case DebugRequest(query) =>
        var reply := DebugReply(va.slots, query);
        if reply.Err? {
          return Threw(reply.error);
        }
        if reply.value.Some? {
          va.posted := va.posted + [reply.value.value];
        }
    }
    va.rerenders := va.rerenders + 1;
    outcome := Handled;
  }

  /**
   * `addImageFromURLParams`: the comma-separated `images` URL parameter,
   * when present, announces that many canvases, then one `addImage` per
   * URL in order, its data the fetched contents of that URL.
   */
  function UrlParamMessages(images: Option<string>): (r: seq<Message>)
  {
    if images.None? then []
    else
      var urls := Split(images.value, ',');
      [InitCanvas(Count(|urls|))] + seq(|urls|, i requires 0 <= i < |urls| => AddImage(ImageBody(Plain(urls[i]), FileBytes(urls[i]))))
  }

  /**
   * A present parameter always yields messages, even an empty one (which
   * splits into one empty URL): `initCanvas` with the number of URLs first,
   * then the URLs in order.
   */
  lemma UrlParamMessagesOrder(images: string)
    ensures var urls := Split(images, ',');
      var r := UrlParamMessages(Some(images));
      && |r| == |urls| + 1 && r[0] == InitCanvas(Count(|urls|))
      && forall i :: 0 <= i < |urls| ==> r[i + 1].AddImage? && r[i + 1].image.uri == Plain(urls[i])
    ensures UrlParamMessages(Some("")) == [InitCanvas(Count(1)), AddImage(ImageBody(Plain(""), FileBytes("")))]
  {
    assert Split("", ',') == [""];
  }

  /**
   * `listenToMessages`: once the listener is installed the ready manager is
   * told, and the images named in the URL are posted to the page itself.
   */
  method ListenToMessages(va: ViewerArray, rs: ReadyStateManager, images: Option<string>)
    requires rs.Valid()
    modifies va`posted, rs
    ensures rs.Valid() && rs.calls == old(rs.calls) + [ListenerReady]
    ensures va.posted == old(va.posted) + UrlParamMessages(images)
  {
    rs.SetEventListenerReady();
    va.posted := va.posted + UrlParamMessages(images);
  }
}
