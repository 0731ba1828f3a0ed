/**
 * The message listener of the oldest viewer page (`messageListener` in its
 * `events.ts`): a state-updater function over the viewer array that
 * renames the mesh message types to internal kinds, mutates the slots in
 * place, and returns a copy of the array for every message.
 */
module LegacyEvents {
  import opened Common
  import opened Messages
  import opened ViewerSlots
  import opened MeshLayers
  import opened ReactEvents

  /** `addMeshOverlay(nv, item, kind)` on one slot: the reader is called and its result dropped. */
  function MeshOverlayOnSlot(s: Slot, body: OverlayBody, kind: string): (Slot, Option<string>)
  {
    RecordedMeshOverlay(s, body, LegacyDefaults(kind), kind == "replaceOverlay", kind == "curvature", false, true)
  }

  /**
   * The oldest and the older listener do the same to a slot for every mesh
   * message type: the renaming, the inline table and the kind tests agree
   * with the message type tests, except that the oldest never fetches.
   */
  lemma MeshOverlayAgreesWithSrc(s: Slot, body: OverlayBody, t: string)
    requires t in MeshTypes
    ensures MeshOverlayOnSlot(s, body, LegacyKind(t).value)
      == RecordedMeshOverlay(s, body, LayerDefaults(t), t == "replaceMeshOverlay", t == "addMeshCurvature", false, true)
  {
    LegacyTableAgrees(t);
  }

  /** `addOverlay`; `isImage` is what this version's `isImageType` says of the name. */
  function OverlayOnSlot(s: Slot, body: OverlayBody, isImage: bool): Slot
  {
    if isImage then s.(volumes := s.volumes + [Volume(body.uri, Some("redyell"), Some(0.5))])
    else s.(meshes := s.meshes + [Mesh(body.uri, Some(0.5), [], [])])
  }

  /** This version sets AXIAL whenever the array will hold more than one canvas. */
  function InitSliceType(current: SliceType, length: nat, n: Option<int>): (r: SliceType)
    ensures r == Axial || r == current
    ensures n.Some? && length + n.value > 1 ==> r == Axial
  {
    if n.Some? && length + n.value > 1 then Axial else current
  }

  /**
   * The two rules differ: adding canvases to an array that already holds one
   * switches to AXIAL here but not in the newer listeners; for an empty array
   * they agree.
   */
  lemma InitSliceTypeDiffers(current: SliceType, n: int)
    requires current != Axial && n >= 1
    ensures InitSliceType(current, 1, Some(n)) == Axial
    ensures ReactEvents.InitSliceType(current, 1, Some(n)) == current
    ensures InitSliceType(current, 0, Some(n)) == ReactEvents.InitSliceType(current, 0, Some(n))
  {
  }

  /**
   * The listener for one message. `isImage` is the answer of this version's
   * `isImageType` for an overlay's name; it is not part of this model. A
   * mesh message for a missing slot throws inside the updater, so no new
   * array is returned; a volume overlay for a missing slot rejects
   * asynchronously after the copy is returned. Every other message, known
   * or not, returns a copy.
   */
  method MessageListener(va: ViewerArray, m: Message, isImage: bool) returns (outcome: Outcome)
    modifies va
    ensures outcome.Threw? <==> m.Overlay? && m.kind in MeshTypes && !(0 <= m.overlay.index < |old(va.slots)|)
    ensures outcome.Threw? ==>
      && va.slots == old(va.slots) && va.sliceType == old(va.sliceType)
      && va.rejections == old(va.rejections) + [MissingViewer] && va.rerenders == old(va.rerenders)
    ensures outcome.Handled? <==> !outcome.Threw?
    ensures outcome.Handled? ==> va.rerenders == old(va.rerenders) + 1
    ensures va.posted == old(va.posted)
    ensures !m.InitCanvas? ==> va.sliceType == old(va.sliceType)
    ensures !m.Overlay? ==> va.rejections == old(va.rejections)
    ensures !(m.Overlay? || m.AddImage? || m.InitCanvas?) ==> va.slots == old(va.slots)
    ensures m.AddImage? ==> va.slots == AfterAddImage(old(va.slots), m.image)
    ensures m.InitCanvas? ==>
      && va.slots == old(va.slots) + FreshSlots(GrowCount(CanvasN(m.canvas)))
      && va.sliceType == InitSliceType(old(va.sliceType), |old(va.slots)|, CanvasN(m.canvas))
    ensures m.Overlay? && m.kind == "overlay" ==>
      if 0 <= m.overlay.index < |old(va.slots)| then
        va.slots == old(va.slots)[m.overlay.index := OverlayOnSlot(old(va.slots)[m.overlay.index], m.overlay, isImage)]
        && va.rejections == old(va.rejections)
      else va.slots == old(va.slots) && va.rejections == old(va.rejections) + [MissingViewer]
    ensures m.Overlay? && m.kind in MeshTypes && 0 <= m.overlay.index < |old(va.slots)| ==>
      && va.slots == old(va.slots)[m.overlay.index := MeshOverlayOnSlot(old(va.slots)[m.overlay.index], m.overlay, LegacyKind(m.kind).value).0]
      && va.rejections == old(va.rejections)
    ensures m.Overlay? && m.kind != "overlay" && m.kind !in MeshTypes ==> va.slots == old(va.slots)
  {
    match m {
      case Overlay(t, body) =>
        if t in MeshTypes {
          if !(0 <= body.index < |va.slots|) {
            va.rejections := va.rejections + [MissingViewer];
            return Threw(MissingViewer);
          }
          var kind := LegacyKind(t).value;
          var (s, _) := MeshOverlayOnSlot(va.slots[body.index], body, kind);
          va.slots := va.slots[body.index := s];
        } else if t == "overlay" {
          if 0 <= body.index < |va.slots| {
            va.slots := va.slots[body.index := OverlayOnSlot(va.slots[body.index], body, isImage)];
          } else {
            va.rejections := va.rejections + [MissingViewer];
          }
        }
      case AddImage(body) =>
        var k := va.ClaimSlot();
        va.FillSlot(k, body);
      case InitCanvas(c) =>
        var n := CanvasN(c);
        va.sliceType := InitSliceType(va.sliceType, |va.slots|, n);
        va.GrowBy(GrowCount(n));
      case _ =>
    }
    va.rerenders := va.rerenders + 1;
    outcome := Handled;
  }
}
