/**
 * The message listener of the older Preact viewer page (`listenToMessages`
 * in its `events.ts`): the same cases as the React listener plus
 * `addDcmFiles`, a synchronous volume overlay, a mesh overlay that drops
 * the reader's result, and a `ready` sent to the editor host directly.
 */
module SrcEvents {
  import opened Common
  import opened Messages
  import opened ViewerSlots
  import opened MeshLayers
  import opened ReactEvents
  import SU = SrcUtility

  predicate Recognised(m: Message)
  {
    match m
      case Overlay(t, _) => t in MeshTypes || t == "overlay"
      case AddImage(_) => true
      case AddDcmFiles(_) => true
      case InitCanvas(_) => true
      case DebugRequest(_) => true
      case _ => false
  }

  /** `addOverlay`: an image-type name becomes a 'redyell' volume of opacity 0.5, anything else a mesh. */
  function OverlayOnSlot(s: Slot, body: OverlayBody): (r: Slot)
    ensures SU.IsImageType(body.uri).Some? ==> r == s.(volumes := s.volumes + [Volume(body.uri, Some("redyell"), Some(0.5))])
    ensures SU.IsImageType(body.uri).None? ==> r == s.(meshes := s.meshes + [Mesh(body.uri, Some(0.5), [], [])])
  {
    if SU.IsImageType(body.uri).Some? then s.(volumes := s.volumes + [Volume(body.uri, Some("redyell"), Some(0.5))])
    else s.(meshes := s.meshes + [Mesh(body.uri, Some(0.5), [], [])])
  }

  /** `addMeshOverlay` of this page on one slot: the reader is called, its result dropped. */
  function MeshOverlayOnSlot(s: Slot, body: OverlayBody, t: string, fetchOk: bool): (Slot, Option<string>)
  {
    RecordedMeshOverlay(s, body, LayerDefaults(t), t == "replaceMeshOverlay", t == "addMeshCurvature", true, fetchOk)
  }

  /** `handleDebugMessage` of this page: the React page's answers without `getNVolumes`. */
  function DebugReply(slots: seq<Slot>, query: string): (r: Result<Option<Message>>)
  {
    if query == "getNCanvas" then Ok(Some(DebugAnswer(Number(|slots|))))
    else if query == "getMinMaxOfFirstImage" then
      if |slots| == 0 || |slots[0].volumes| == 0 then Err("nvArray.value[0].volumes[0] is undefined")
      else Ok(Some(DebugAnswer(MinMaxOf(slots[0].volumes[0].name))))
    else Ok(None)
  }

  /** The two pages answer the same debug queries alike, except that this one ignores `getNVolumes`. */
  lemma DebugRepliesAgree(slots: seq<Slot>, query: string)
    ensures DebugReply(slots, query) == if query == "getNVolumes" then Ok(None) else ReactEvents.DebugReply(slots, query)
  {
  }

  /**
   * `addDcmFiles`: a slot is claimed (the first new one, or one appended)
   * but neither filled nor marked used; with at least one file the series
   * becomes a volume of that slot, named after its first file.
   */
  function AfterDcmFiles(slots: seq<Slot>, files: seq<string>): (r: seq<Slot>)
  {
    var c := Claimed(slots);
    var k := ClaimIndex(slots);
    assert k < |c|;
    if |files| == 0 then c else c[k := c[k].(volumes := c[k].volumes + [Volume(files[0], None, None)])]
  }

  /**
   * The claimed slot stays new, so the next `addImage` or `addDcmFiles`
   * claims the same slot again; the slot count grows only when no slot
   * was new.
   */
  lemma DcmFilesKeepSlotNew(slots: seq<Slot>, files: seq<string>)
    ensures var r := AfterDcmFiles(slots, files);
      && |r| == |Claimed(slots)|
      && r[ClaimIndex(slots)].isNew
      && ClaimIndex(r) == ClaimIndex(slots)
      && (|r| == |slots| <==> FirstNew(slots).Some?)
  {
    var r := AfterDcmFiles(slots, files);
    var k := ClaimIndex(slots);
    assert forall i :: 0 <= i < k ==> r[i] == slots[i];
    assert FirstNew(r) == Some(k) by {
      assert r[k].isNew;
      assert forall i :: 0 <= i < k ==> !r[i].isNew;
    }
  }

  /**
   * The listener of this page. `fetchOk` is the outcome of the mesh-layer
   * fetch. A thrown error aborts the listener before the rerender.
   */
  method OnMessage(va: ViewerArray, m: Message, fetchOk: bool) returns (outcome: Outcome)
    modifies va
    ensures !Recognised(m) ==> outcome == NotHandled
    ensures outcome.Threw? <==>
      || (m.DebugRequest? && DebugReply(old(va.slots), m.query).Err?)
      || (m.Overlay? && m.kind == "overlay" && !(0 <= m.overlay.index < |old(va.slots)|))
    ensures outcome.NotHandled? || outcome.Threw? ==>
      && va.slots == old(va.slots) && va.sliceType == old(va.sliceType) && va.posted == old(va.posted)
      && va.rejections == old(va.rejections) && va.rerenders == old(va.rerenders)
    ensures outcome.Handled? ==> va.rerenders == old(va.rerenders) + 1
    ensures !m.InitCanvas? ==> va.sliceType == old(va.sliceType)
    ensures !m.DebugRequest? ==> va.posted == old(va.posted)
    ensures !(m.Overlay? && m.kind in MeshTypes) ==> va.rejections == old(va.rejections)
    ensures m.AddImage? ==> outcome == Handled && va.slots == AfterAddImage(old(va.slots), m.image)
    ensures m.AddDcmFiles? ==> outcome == Handled && va.slots == AfterDcmFiles(old(va.slots), m.files)
    ensures m.InitCanvas? ==>
      && outcome == Handled
      && va.slots == old(va.slots) + FreshSlots(GrowCount(CanvasN(m.canvas)))
      && va.sliceType == InitSliceType(old(va.sliceType), |old(va.slots)|, CanvasN(m.canvas))
    ensures m.Overlay? && m.kind == "overlay" && 0 <= m.overlay.index < |old(va.slots)| ==>
      && outcome == Handled
      && va.slots == old(va.slots)[m.overlay.index := OverlayOnSlot(old(va.slots)[m.overlay.index], m.overlay)]
    ensures m.Overlay? && m.kind in MeshTypes ==>
      && outcome == Handled
      && (!(0 <= m.overlay.index < |old(va.slots)|) ==>
            va.slots == old(va.slots) && va.rejections == old(va.rejections) + [MissingViewer])
      && (0 <= m.overlay.index < |old(va.slots)| ==>
            var (s, err) := MeshOverlayOnSlot(old(va.slots)[m.overlay.index], m.overlay, m.kind, fetchOk);
            && va.slots == old(va.slots)[m.overlay.index := s]
            && va.rejections == old(va.rejections) + (if err.Some? then [err.value] else []))
    ensures m.DebugRequest? && DebugReply(old(va.slots), m.query).Ok? ==>
      && outcome == Handled
      && va.slots == old(va.slots)
      && var reply := DebugReply(old(va.slots), m.query).value;
         va.posted == old(va.posted) + (if reply.Some? then [reply.value] else [])
  {
    if !Recognised(m) {
      return NotHandled;
    }
    match m {
      case Overlay(t, body) =>
        if !(0 <= body.index < |va.slots|) {
          if t == "overlay" {
            return Threw(MissingViewer);
          }
          va.rejections := va.rejections + [MissingViewer];
        } else if t == "overlay" {
          va.slots := va.slots[body.index := OverlayOnSlot(va.slots[body.index], body)];
        } else {
          var (s, err) := MeshOverlayOnSlot(va.slots[body.index], body, t, fetchOk);
          va.slots := va.slots[body.index := s];
          if err.Some? {
            va.rejections := va.rejections + [err.value];
          }
        }
      case AddImage(body) =>
        var k := va.ClaimSlot();
        va.FillSlot(k, body);
      case AddDcmFiles(files) =>
        var k := va.ClaimSlot();
        if |files| > 0 {
          va.slots := va.slots[k := va.slots[k].(volumes := va.slots[k].volumes + [Volume(files[0], None, None)])];
        }
      case InitCanvas(c) =>
        var n := CanvasN(c);
        va.sliceType := InitSliceType(va.sliceType, |va.slots|, n);
        va.GrowBy(GrowCount(n));
      case DebugRequest(query) =>
        var reply := DebugReply(va.slots, query);
        if reply.Err? {
          return Threw(reply.error);
        }
        if reply.value.Some? {
          va.posted := va.posted + [reply.value.value];
        }
    }
    va.rerenders := va.rerenders + 1;
    outcome := Handled;
  }

  /**
   * `listenToMessages`: `ready` goes to the host exactly when the page runs
   * in the editor's webview, then the URL's images are posted to the page.
   */
  method ListenToMessages(va: ViewerArray, hasHost: bool, images: Option<string>) returns (toHost: seq<Message>)
    modifies va`posted
    ensures toHost == if hasHost then [Ready] else []
    ensures va.posted == old(va.posted) + UrlParamMessages(images)
  {
    toHost := [];
    if hasHost {
      toHost := toHost + [Ready];
    }
    va.posted := va.posted + UrlParamMessages(images);
  }
}
