/**
 * The MATLAB bridge page: MATLAB's `uihtml` component calls `setup`, then
 * writes command messages to the component's `Data`; the page applies each
 * to the first viewer instance and writes replies back to `Data`.
 */
module MatlabBridge {
  import opened Common
  import opened Base64

  /** A JavaScript value as a field of a MATLAB message may hold it. */
  datatype Value = Num(n: real) | Str(s: string) | Bool(b: bool) | Null

  /** `if (v)`: JavaScript truthiness. */
  predicate Truthy(v: Option<Value>)
  {
    v.Some? && match v.value
      case Num(n) => n != 0.0
      case Str(s) => s != ""
      case Bool(b) => b
      case Null => false
  }

  /** `v ?? d`: the default replaces undefined and null. */
  function OrElse(v: Option<Value>, d: Value): (r: Value)
    ensures v.None? || v == Some(Null) ==> r == d
  {
    if v.None? || v.value.Null? then d else v.value
  }

  datatype Payload = Payload(
    data: Option<string>, name: Option<string>,
    colormap: Option<Value>, opacity: Option<Value>, index: Option<Value>,
    x: Option<Value>, y: Option<Value>, z: Option<Value>,
    sliceType: Option<Value>)

  datatype MatlabMessage = MatlabMessage(kind: string, payload: Option<Payload>)

  /** A loaded volume; a colormap or opacity of None is the viewer library's default. */
  datatype Volume = Volume(name: string, bytes: seq<byte>, colormap: Option<Value>, opacity: Option<Value>)

  datatype Mesh = Mesh(name: string, bytes: seq<byte>)

  /** One viewer instance of `nvArray`. */
  datatype Viewer = Viewer(volumes: seq<Volume>, meshes: seq<Mesh>, crosshairPos: seq<real>)

  /** The crosshair of a new viewer instance (the library's default, the volume's centre). */
  const NewViewer := Viewer([], [], [0.5, 0.5, 0.5])

  /** `SLICE_TYPE.MULTIPLANAR` of the viewer library. */
  const Multiplanar := Num(3.0)

  /** What the page writes to the component's `Data`. */
  datatype Outbound = ViewerReady | CrosshairUpdate(position: seq<real>) | Error(message: string)

  /** The page state a command can change. */
  datatype State = State(viewers: seq<Viewer>, sliceType: Value)

  /** The outcome of one command: the new state, the replies, the rerenders and the console warnings. */
  datatype Effect = Effect(state: State, sent: seq<Outbound>, rerenders: nat, warnings: seq<string>)

  function NoEffect(st: State): Effect { Effect(st, [], 0, []) }

  /** A whole number at least zero and below `count`, as an index into the volume list. */
  function IndexIn(v: Option<Value>, count: nat): (r: Option<nat>)
    ensures r.Some? ==> r.value < count && v == Some(Num(r.value as real))
    ensures (r.None? && v.Some? && v.value.Num?) ==> v.value.n.Floor as real != v.value.n || v.value.n < 0.0 || v.value.n >= count as real
  {
    if v.Some? && v.value.Num? && v.value.n.Floor as real == v.value.n && 0.0 <= v.value.n < count as real
    then Some(v.value.n.Floor as nat) else None
  }

  /** The number of volumes of the first viewer, or 0 when there is none. */
  function FirstCount(viewers: seq<Viewer>): nat
  {
    if |viewers| == 0 then 0 else |viewers[0].volumes|
  }

  /** The first viewer with its volume `k` replaced by `vol`. */
  function WithVolume(viewers: seq<Viewer>, k: nat, vol: Volume): (r: seq<Viewer>)
    requires k < FirstCount(viewers)
    ensures |r| == |viewers| && r[1..] == viewers[1..]
    ensures |r[0].volumes| == |viewers[0].volumes| && r[0].volumes[k] == vol
    ensures forall j :: 0 <= j < |r[0].volumes| && j != k ==> r[0].volumes[j] == viewers[0].volumes[j]
    ensures r[0].meshes == viewers[0].meshes && r[0].crosshairPos == viewers[0].crosshairPos
  {
    viewers[0 := viewers[0].(volumes := viewers[0].volumes[k := vol])]
  }

  /**
   * `setOpacity` and `setColormap`: the value must have the field's type,
   * there must be a viewer, and the index must name one of its volumes.
   */
  function SetVolumeField(st: State, p: Payload, opacity: bool): Effect
  {
    var k := IndexIn(p.index, FirstCount(st.viewers));
    var value := if opacity then p.opacity else p.colormap;
    var typed := value.Some? && (if opacity then value.value.Num? else value.value.Str?);
    if !typed || k.None? then NoEffect(st)
    else
      var vol := st.viewers[0].volumes[k.value];
      var vol' := if opacity then vol.(opacity := value) else vol.(colormap := value);
      Effect(st.(viewers := WithVolume(st.viewers, k.value, vol')), [], 1, [])
  }

  /** `updateCrosshairs`: three numbers and a viewer, or nothing happens. */
  function UpdateCrosshairs(st: State, p: Payload): Effect
  {
    if p.x.Some? && p.x.value.Num? && p.y.Some? && p.y.value.Num? && p.z.Some? && p.z.value.Num?
       && |st.viewers| > 0
    then
      var v0 := st.viewers[0].(crosshairPos := [p.x.value.n, p.y.value.n, p.z.value.n]);
      Effect(st.(viewers := st.viewers[0 := v0]), [], 1, [])
    else NoEffect(st)
  }

  /**
   * `loadVolumeFromBase64`. Without data nothing happens. With no viewer a
   * new instance is attached when the canvas element exists. The data is
   * decoded by `atob` and the char-code loop; a decode failure or a load
   * failure (`loadError`, the library's rejection) is reported to MATLAB.
   * On success the volume is added last to the first viewer, with the
   * given colormap when truthy and opacity when defined, and the first
   * viewer's crosshair is reported.
   */
  function LoadVolume(st: State, p: Payload, hasCanvas: bool, loadError: Option<string>): (r: Effect)
    ensures r.state.sliceType == st.sliceType && r.warnings == [] && |r.sent| <= 1
    ensures |st.viewers| > 0 ==>
      && |r.state.viewers| == |st.viewers| && r.state.viewers[1..] == st.viewers[1..]
      && r.state.viewers[0].meshes == st.viewers[0].meshes
      && |r.state.viewers[0].volumes| >= |st.viewers[0].volumes|
      && r.state.viewers[0].volumes[..|st.viewers[0].volumes|] == st.viewers[0].volumes
    ensures |st.viewers| == 0 ==> |r.state.viewers| <= 1 && (!hasCanvas ==> r == NoEffect(st))
  {
    if p.data.None? || p.data.value == "" then NoEffect(st)
    else
      var created := |st.viewers| == 0 && hasCanvas;
      var vs := if created then [NewViewer] else st.viewers;
      var st' := st.(viewers := vs);
      var r := if created then 1 else 0;
      if |vs| == 0 then NoEffect(st)
      else match ForgivingDecode(p.data.value)
        case None => Effect(st', [Error("Failed to load volume: " + InvalidCharacter)], r, [])
        case Some(bytes) =>
          if loadError.Some? then Effect(st', [Error("Failed to load volume: " + loadError.value)], r, [])
          else
            var name := if p.name.Some? then p.name.value else "volume.nii";
            var vol := Volume(name, bytes, if Truthy(p.colormap) then p.colormap else None, p.opacity);
            var v0 := vs[0].(volumes := vs[0].volumes + [vol]);
            Effect(st'.(viewers := vs[0 := v0]), [CrosshairUpdate(vs[0].crosshairPos)], r + 1, [])
  }

  /** `loadMeshFromBase64`: like a volume, but only into an existing viewer and with no crosshair reply. */
  function LoadMesh(st: State, p: Payload, loadError: Option<string>): (r: Effect)
    ensures r.state.sliceType == st.sliceType && r.warnings == [] && r.rerenders <= 1
    ensures |r.state.viewers| == |st.viewers|
    ensures |st.viewers| > 0 ==>
      && r.state.viewers[1..] == st.viewers[1..]
      && r.state.viewers[0].volumes == st.viewers[0].volumes
      && r.state.viewers[0].crosshairPos == st.viewers[0].crosshairPos
      && |r.state.viewers[0].meshes| == |st.viewers[0].meshes| + r.rerenders
      && r.state.viewers[0].meshes[..|st.viewers[0].meshes|] == st.viewers[0].meshes
  {
    if p.data.None? || p.data.value == "" || |st.viewers| == 0 then NoEffect(st)
    else match ForgivingDecode(p.data.value)
      case None => Effect(st, [Error("Failed to load mesh: " + InvalidCharacter)], 0, [])
      case Some(bytes) =>
        if loadError.Some? then Effect(st, [Error("Failed to load mesh: " + loadError.value)], 0, [])
        else
          var name := if p.name.Some? then p.name.value else "mesh.obj";
          var v0 := st.viewers[0].(meshes := st.viewers[0].meshes + [Mesh(name, bytes)]);
          Effect(st.(viewers := st.viewers[0 := v0]), [], 1, [])
  }

  /** `handleMatlabMessage`: a message without payload is ignored; otherwise one case per type. */
  function Handle(st: State, m: MatlabMessage, hasCanvas: bool, loadError: Option<string>): (r: Effect)
    ensures r.warnings != [] <==> m.payload.Some? && m.kind !in Known
    ensures r.sent != [] ==> m.kind == "loadVolume" || m.kind == "addMesh"
    ensures r.state.sliceType != st.sliceType ==> m.kind == "setSliceType"
    ensures r.state.viewers != st.viewers ==> m.payload.Some? && m.kind in Known - {"setSliceType"}
  {
    if m.payload.None? then NoEffect(st)
    else
      var p := m.payload.value;
      if m.kind == "loadVolume" then LoadVolume(st, p, hasCanvas, loadError)
      else if m.kind == "setOpacity" then SetVolumeField(st, p, true)
      else if m.kind == "setColormap" then SetVolumeField(st, p, false)
      else if m.kind == "updateCrosshairs" then UpdateCrosshairs(st, p)
      else if m.kind == "addMesh" then LoadMesh(st, p, loadError)
      else if m.kind == "setSliceType" then Effect(st.(sliceType := OrElse(p.sliceType, Multiplanar)), [], 0, [])
      else if m.kind == "clearVolumes" then
        if |st.viewers| > 0 then Effect(st.(viewers := st.viewers[0 := st.viewers[0].(volumes := [])]), [], 1, [])
        else NoEffect(st)
      else Effect(st, [], 0, ["Unknown message type from MATLAB: " + m.kind])
  }

  const Known: set<string> := {"loadVolume", "setOpacity", "setColormap", "updateCrosshairs", "addMesh", "setSliceType", "clearVolumes"}

  /** A message without payload, and a message of an unknown type, change no state; only the latter warns. */
  lemma IgnoredMessages(st: State, m: MatlabMessage, hasCanvas: bool, loadError: Option<string>)
    ensures m.payload.None? ==> Handle(st, m, hasCanvas, loadError) == NoEffect(st)
    ensures m.payload.Some? && m.kind !in Known ==>
      Handle(st, m, hasCanvas, loadError) == Effect(st, [], 0, ["Unknown message type from MATLAB: " + m.kind])
  {
  }

  /**
   * `setOpacity` changes the addressed volume's opacity and nothing else,
   * exactly when the index is a valid volume index and the opacity a
   * number; otherwise nothing changes and nothing is rendered.
   */
  lemma SetOpacityGuard(st: State, p: Payload)
    ensures var e := Handle(st, MatlabMessage("setOpacity", Some(p)), false, None);
      var k := IndexIn(p.index, FirstCount(st.viewers));
      && e.sent == [] && e.warnings == [] && e.state.sliceType == st.sliceType
      && (e.rerenders == 1 <==> k.Some? && p.opacity.Some? && p.opacity.value.Num?)
      && (e.rerenders == 0 ==> e.state == st)
      && (e.rerenders == 1 ==>
            && |e.state.viewers| == |st.viewers| && e.state.viewers[1..] == st.viewers[1..]
            && |e.state.viewers[0].volumes| == |st.viewers[0].volumes|
            && e.state.viewers[0].volumes[k.value] == st.viewers[0].volumes[k.value].(opacity := p.opacity)
            && forall j :: 0 <= j < |st.viewers[0].volumes| && j != k.value ==>
                 e.state.viewers[0].volumes[j] == st.viewers[0].volumes[j])
  {
  }

  /** `setColormap` likewise, for a string colormap. */
  lemma SetColormapGuard(st: State, p: Payload)
    ensures var e := Handle(st, MatlabMessage("setColormap", Some(p)), false, None);
      var k := IndexIn(p.index, FirstCount(st.viewers));
      && e.sent == [] && e.warnings == []
      && (e.rerenders == 1 <==> k.Some? && p.colormap.Some? && p.colormap.value.Str?)
      && (e.rerenders == 0 ==> e.state == st)
      && (e.rerenders == 1 ==>
            && e.state.viewers[0].volumes[k.value] == st.viewers[0].volumes[k.value].(colormap := p.colormap)
            && forall j :: 0 <= j < |st.viewers[0].volumes| && j != k.value ==>
                 e.state.viewers[0].volumes[j] == st.viewers[0].volumes[j])
  {
  }

  /** The crosshair moves only for three numbers and an existing viewer, and then to exactly them. */
  lemma CrosshairsNeedThreeNumbers(st: State, p: Payload, x: real, y: real, z: real)
    ensures p.x.None? || !p.x.value.Num? ==> Handle(st, MatlabMessage("updateCrosshairs", Some(p)), false, None) == NoEffect(st)
    ensures |st.viewers| > 0 && p.x == Some(Num(x)) && p.y == Some(Num(y)) && p.z == Some(Num(z)) ==>
      Handle(st, MatlabMessage("updateCrosshairs", Some(p)), false, None).state.viewers[0].crosshairPos == [x, y, z]
  {
  }

  /** Without a slice type (or with null) the layout becomes MULTIPLANAR; a given value is taken as is. */
  lemma SliceTypeDefault(st: State, p: Payload)
    ensures var e := Handle(st, MatlabMessage("setSliceType", Some(p)), false, None);
      && e.state.viewers == st.viewers
      && (p.sliceType.None? ==> e.state.sliceType == Multiplanar)
      && (p.sliceType.Some? && !p.sliceType.value.Null? ==> e.state.sliceType == p.sliceType.value)
  {
  }

  /** `clearVolumes` empties the first viewer's volumes and nothing else, when there is a viewer. */
  lemma ClearVolumesFirstOnly(st: State, p: Payload)
    ensures var e := Handle(st, MatlabMessage("clearVolumes", Some(p)), false, None);
      && |e.state.viewers| == |st.viewers|
      && (|st.viewers| > 0 ==>
            && e.state.viewers[0].volumes == [] && e.state.viewers[0].meshes == st.viewers[0].meshes
            && e.state.viewers[1..] == st.viewers[1..])
      && (|st.viewers| == 0 ==> e == NoEffect(st))
  {
  }

  /**
   * A volume load without data does nothing; a successful one adds exactly
   * one volume, last, to the first viewer, holding the decoded bytes and
   * named 'volume.nii' unless a name was given, and reports the crosshair.
   */
  lemma LoadVolumeAddsOne(st: State, p: Payload, hasCanvas: bool)
    ensures p.data.None? ==> LoadVolume(st, p, hasCanvas, None) == NoEffect(st)
    ensures p.data.Some? && ForgivingDecode(p.data.value).Some? && p.data.value != "" && (|st.viewers| > 0 || hasCanvas) ==>
      var e := LoadVolume(st, p, hasCanvas, None);
      var before := if |st.viewers| == 0 then [NewViewer] else st.viewers;
      && |e.state.viewers| == |before|
      && |e.state.viewers[0].volumes| == |before[0].volumes| + 1
      && e.state.viewers[0].volumes[..|before[0].volumes|] == before[0].volumes
      && var vol := e.state.viewers[0].volumes[|before[0].volumes|];
         && vol.bytes == ForgivingDecode(p.data.value).value
         && vol.name == (if p.name.Some? then p.name.value else "volume.nii")
         && e.sent == [CrosshairUpdate(before[0].crosshairPos)]
  {
  }

  /** Bytes encoded by the sender's base64 encoder arrive unchanged as the new volume's contents. */
  lemma LoadVolumeReceivesEncodedBytes(st: State, p: Payload, bytes: seq<byte>)
    requires |bytes| > 0 && p.data == Some(Encode(bytes)) && |st.viewers| > 0
    ensures var e := LoadVolume(st, p, false, None);
      && |e.state.viewers| > 0 && |e.state.viewers[0].volumes| > |st.viewers[0].volumes|
      && e.state.viewers[0].volumes[|st.viewers[0].volumes|].bytes == bytes
  {
    RoundTrip(bytes);
    assert Encode(bytes) != "" by {
      assert |SextetsOf(bytes)| > 0;
    }
    LoadVolumeAddsOne(st, p, false);
  }

  /**
   * The guard of `setOpacity` and `setColormap` as written: the index is
   * only compared with the volume count. Returns whether the guard passes
   * and whether the following property write then finds a volume.
   */
  function GuardAsWritten(index: real, count: nat): (bool, bool)
  {
    var passes := count as real > index;
    (passes, passes && index.Floor as real == index && index >= 0.0)
  }

  /**
   * Whether `setOpacity` or `setColormap` throws as written: the value has
   * the field's type, there is a viewer, and the index is a number that the
   * guard lets through although it names no volume (a negative or
   * fractional index), so the write lands on `undefined`.
   */
  predicate Throws(st: State, m: MatlabMessage)
  {
    && m.payload.Some? && (m.kind == "setOpacity" || m.kind == "setColormap")
    && var p := m.payload.value;
       var value := if m.kind == "setOpacity" then p.opacity else p.colormap;
       && value.Some? && (if m.kind == "setOpacity" then value.value.Num? else value.value.Str?)
       && |st.viewers| > 0 && p.index.Some? && p.index.value.Num?
       && GuardAsWritten(p.index.value.n, FirstCount(st.viewers)) == (true, false)
  }

  /**
   * A throwing write is one the corrected guard rejects, and it leaves the
   * state as it was: the throw happens before the rerender.
   */
  lemma ThrowChangesNothing(st: State, m: MatlabMessage, hasCanvas: bool, loadError: Option<string>)
    ensures Throws(st, m) ==> IndexIn(m.payload.value.index, FirstCount(st.viewers)).None?
    ensures Throws(st, m) ==> Handle(st, m, hasCanvas, loadError) == NoEffect(st)
  {
    if Throws(st, m) {
      CorrectedGuardNamesVolume(m.payload.value.index.value.n, FirstCount(st.viewers));
    }
  }

  /** Index -1 and index 0.5 both throw for a viewer with one volume. */
  lemma BadIndicesThrow(v: Volume, p: Payload)
    requires p.opacity == Some(Num(0.5))
    ensures var st := State([Viewer([v], [], [0.5, 0.5, 0.5])], Multiplanar);
      && Throws(st, MatlabMessage("setOpacity", Some(p.(index := Some(Num(-1.0))))))
      && Throws(st, MatlabMessage("setOpacity", Some(p.(index := Some(Num(0.5))))))
      && !Throws(st, MatlabMessage("setOpacity", Some(p.(index := Some(Num(0.0))))))
  {
    assert (0.5).Floor == 0;
  }

  /** A negative index passes the guard but names no volume, so the write `volumes[-1].opacity` throws. */
  lemma NegativeIndexPassesGuard()
    ensures GuardAsWritten(-1.0, 1) == (true, false)
    ensures IndexIn(Some(Num(-1.0)), 1).None?
  {
  }

  /** The corrected guard admits exactly the indices that name a volume. */
  lemma CorrectedGuardNamesVolume(index: real, count: nat)
    ensures IndexIn(Some(Num(index)), count).Some? <==> GuardAsWritten(index, count).1
  {
  }

  /** `atob` followed by the loop copying each char code into a `Uint8Array`. */
  method DecodeData(data: string) returns (r: Option<seq<byte>>)
    ensures r == ForgivingDecode(data)
  {
    var bin := Atob(data);
    if bin.None? {
      return None;
    }
    var arr := FillBytes(bin.value);
    var b := ForgivingDecode(data).value;
    assert arr[..] == b by {
      forall i | 0 <= i < |b|
        ensures arr[..][i] == b[i]
      {
        assert bin.value[i] as int == b[i] as int;
      }
    }
    return Some(arr[..]);
  }

  /**
   * The page: the first viewer array state, whether `setup` has registered
   * the component, whether the app has mounted (`appPropsGlobal`), and
   * what was written to MATLAB.
   */
  class Bridge {
    var viewers: seq<Viewer>
    var sliceType: Value
    var registered: bool
    var mounted: bool
    var toMatlab: seq<Outbound>
    var rerenders: nat
    var warnings: seq<string>
    /** How many messages threw out of the `DataChanged` listener. */
    var uncaught: nat
    /** Whether the page has the element 'niivue-canvas-0'. */
    const hasCanvas: bool

    constructor (hasCanvas: bool, sliceType: Value)
      ensures this.hasCanvas == hasCanvas && this.sliceType == sliceType
      ensures viewers == [] && !registered && !mounted && toMatlab == [] && rerenders == 0 && warnings == []
      ensures uncaught == 0
    {
      this.hasCanvas := hasCanvas;
      this.sliceType := sliceType;
      viewers := [];
      registered := false;
      mounted := false;
      toMatlab := [];
      rerenders := 0;
      warnings := [];
      uncaught := 0;
    }

    /** `sendToMatlab`: written to `Data` once `setup` has registered the component, dropped before. */
    method SendToMatlab(out: seq<Outbound>)
      modifies this`toMatlab
      ensures toMatlab == old(toMatlab) + (if registered then out else [])
    {
      if registered {
        toMatlab := toMatlab + out;
      }
    }

    /** `window.setup`: the component is remembered, its `DataChanged` listened to, and `viewerReady` written. */
    method Setup()
      modifies this`registered, this`toMatlab
      ensures registered && toMatlab == old(toMatlab) + [ViewerReady]
    {
      registered := true;
      SendToMatlab([ViewerReady]);
    }

    /** The app's first effect publishes its state to the bridge. */
    method Mount()
      modifies this`mounted
      ensures mounted
    {
      mounted := true;
    }

    /** `handleMatlabMessage` on the page state, with the outcome of the library's load as `loadError`. */
    method HandleMatlabMessage(m: MatlabMessage, loadError: Option<string>)
      modifies this`viewers, this`sliceType, this`toMatlab, this`rerenders, this`warnings, this`uncaught
      ensures var e := Handle(old(State(viewers, sliceType)), m, hasCanvas, loadError);
        && viewers == e.state.viewers && sliceType == e.state.sliceType
        && toMatlab == old(toMatlab) + (if registered then e.sent else [])
        && rerenders == old(rerenders) + e.rerenders
        && warnings == old(warnings) + e.warnings
      ensures uncaught == old(uncaught) + (if Throws(old(State(viewers, sliceType)), m) then 1 else 0)
    {
      if Throws(State(viewers, sliceType), m) {
        ThrowChangesNothing(State(viewers, sliceType), m, hasCanvas, loadError);
        uncaught := uncaught + 1;
        return;
      }
      var e := Handle(State(viewers, sliceType), m, hasCanvas, loadError);
      if m.payload.Some? && m.kind == "loadVolume" {
        LoadVolumeFromBase64(m.payload.value, loadError);
        return;
      }
      viewers := e.state.viewers;
      sliceType := e.state.sliceType;
      rerenders := rerenders + e.rerenders;
      warnings := warnings + e.warnings;
      SendToMatlab(e.sent);
    }

    /** `loadVolumeFromBase64` step by step: attach a viewer if needed, decode with the char-code loop, add. */
    method LoadVolumeFromBase64(p: Payload, loadError: Option<string>)
      modifies this`viewers, this`toMatlab, this`rerenders
      ensures var e := LoadVolume(old(State(viewers, sliceType)), p, hasCanvas, loadError);
        && viewers == e.state.viewers && e.state.sliceType == sliceType
        && toMatlab == old(toMatlab) + (if registered then e.sent else [])
        && rerenders == old(rerenders) + e.rerenders
    {
      if p.data.None? || p.data.value == "" {
        return;
      }
      if |viewers| == 0 && hasCanvas {
        viewers := [NewViewer];
        rerenders := rerenders + 1;
      }
      if |viewers| == 0 {
        return;
      }
      var decoded := DecodeData(p.data.value);
      if decoded.None? {
        SendToMatlab([Error("Failed to load volume: " + InvalidCharacter)]);
        return;
      }
      var bytes := decoded.value;
      if loadError.Some? {
        SendToMatlab([Error("Failed to load volume: " + loadError.value)]);
        return;
      }
      var name := if p.name.Some? then p.name.value else "volume.nii";
      var vol := Volume(name, bytes, None, None);
      if Truthy(p.colormap) {
        vol := vol.(colormap := p.colormap);
      }
      if p.opacity.Some? {
        vol := vol.(opacity := p.opacity);
      }
      var v0 := viewers[0];
      viewers := viewers[0 := v0.(volumes := v0.volumes + [vol])];
      rerenders := rerenders + 1;
      SendToMatlab([CrosshairUpdate(v0.crosshairPos)]);
    }

    /** The `DataChanged` listener that `setup` installs: it acts on a message once the app has mounted. */
    method OnDataChanged(data: Option<MatlabMessage>, loadError: Option<string>)
      modifies this`viewers, this`sliceType, this`toMatlab, this`rerenders, this`warnings, this`uncaught
      ensures !(registered && mounted && data.Some?) ==>
        && viewers == old(viewers) && sliceType == old(sliceType) && toMatlab == old(toMatlab)
        && rerenders == old(rerenders) && warnings == old(warnings) && uncaught == old(uncaught)
      ensures registered && mounted && data.Some? ==>
        var e := Handle(old(State(viewers, sliceType)), data.value, hasCanvas, loadError);
        && viewers == e.state.viewers && sliceType == e.state.sliceType
        && toMatlab == old(toMatlab) + e.sent
        && rerenders == old(rerenders) + e.rerenders
        && warnings == old(warnings) + e.warnings
        && uncaught == old(uncaught) + (if Throws(old(State(viewers, sliceType)), data.value) then 1 else 0)
    {
      if registered && mounted && data.Some? {
        HandleMatlabMessage(data.value, loadError);
      }
    }
  }
}
