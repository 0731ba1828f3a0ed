/**
 * The Python side of the Streamlit component (`niivue_viewer`): it
 * base64-encodes the main image and every overlay, validates each overlay
 * dictionary and fills in its defaults, and hands the frontend one
 * argument record. Any invalid overlay raises `ValueError` before the
 * frontend is called.
 */
module StreamlitComponent {
  import opened Common
  import opened Base64

  /** The Python values an overlay dictionary or the settings may hold. */
  datatype PyValue =
    | PyNone
    | PyBool(b: bool)
    | PyInt(i: int)
    | PyFloat(f: real)
    | PyStr(s: string)
    | PyBytes(bytes: seq<byte>)

  /** Python truthiness. */
  predicate Truthy(v: PyValue)
  {
    match v
      case PyNone => false
      case PyBool(b) => b
      case PyInt(i) => i != 0
      case PyFloat(f) => f != 0.0
      case PyStr(s) => s != ""
      case PyBytes(bytes) => bytes != []
  }

  type Dict = map<string, PyValue>

  /** One overlay as the frontend receives it: base64 data, a name, a colormap and an opacity. */
  datatype OverlayArg = OverlayArg(data: string, name: PyValue, colormap: PyValue, opacity: PyValue)

  /** Everything `_component_func` is called with, except the Streamlit key. */
  datatype ComponentArgs = ComponentArgs(
    niftiData: string,
    filename: string,
    overlays: Option<seq<OverlayArg>>,
    height: int,
    viewMode: string,
    styled: bool,
    settings: Dict)

  /** What the three checks accept: bytes under 'data', and a 'name' or a 'filename' key. */
  predicate ValidOverlay(o: Dict)
  {
    "data" in o && o["data"].PyBytes? && ("name" in o || "filename" in o)
  }

  /** `overlay.get("name") or overlay.get("filename", "overlay")`. */
  function OverlayName(o: Dict): (r: PyValue)
    ensures "name" in o && Truthy(o["name"]) ==> r == o["name"]
    ensures !("name" in o && Truthy(o["name"])) && "filename" in o ==> r == o["filename"]
    ensures "name" !in o && "filename" !in o ==> r == PyStr("overlay")
  {
    if "name" in o && Truthy(o["name"]) then o["name"]
    else if "filename" in o then o["filename"]
    else PyStr("overlay")
  }

  /** The head of every overlay error: the overlay's index. */
  function OverlayTag(i: nat): string
  {
    "Overlay " + DecimalString(i) + ": "
  }

  /** The live check of overlay `i` and, when it passes, its converted form. */
  function CheckOverlay(i: nat, o: Dict): (r: Result<OverlayArg>)
    ensures r.Ok? <==> ValidOverlay(o)
    ensures r.Err? ==> StartsWith(r.error, OverlayTag(i))
    ensures r.Ok? ==> r.value.name == OverlayName(o)
  {
    if "data" !in o then Err(OverlayTag(i) + "'data' field is required")
    else if !o["data"].PyBytes? then Err(OverlayTag(i) + "'data' must be bytes")
    else if "name" !in o && "filename" !in o then
      Err(OverlayTag(i) + "either 'name' or 'filename' field is required")
    else
      Ok(OverlayArg(
        Encode(o["data"].bytes),
        OverlayName(o),
        if "colormap" in o then o["colormap"] else PyStr("red"),
        if "opacity" in o then o["opacity"] else PyFloat(0.5)))
  }

  /**
   * An overlay passes exactly when it is valid; a passing overlay keeps its
   * bytes (they decode back from the base64), and an absent colormap or
   * opacity becomes "red" or 0.5.
   */
  lemma CheckOverlayCases(i: nat, o: Dict)
    ensures CheckOverlay(i, o).Ok? <==> ValidOverlay(o)
    ensures ValidOverlay(o) ==>
      var a := CheckOverlay(i, o).value;
      && ForgivingDecode(a.data) == Some(o["data"].bytes)
      && a.name == OverlayName(o)
      && ("colormap" !in o ==> a.colormap == PyStr("red"))
      && ("colormap" in o ==> a.colormap == o["colormap"])
      && ("opacity" !in o ==> a.opacity == PyFloat(0.5))
      && ("opacity" in o ==> a.opacity == o["opacity"])
  {
    if ValidOverlay(o) {
      RoundTrip(o["data"].bytes);
    }
  }

  /** The pass/fail half of `CheckOverlayCases`, with the error's text. */
  lemma CheckOverlayPasses(i: nat, o: Dict)
    ensures CheckOverlay(i, o).Ok? <==> ValidOverlay(o)
    ensures CheckOverlay(i, o).Err? ==> |CheckOverlay(i, o).error| > 0
  {
  }

  /** The overlays converted in order, or the error of the first overlay that fails its check. */
  function ConvertOverlays(os: seq<Dict>): (r: Result<seq<OverlayArg>>)
    ensures r.Ok? ==> |r.value| == |os|
  {
    if |os| == 0 then Ok([])
    else match ConvertOverlays(os[..|os| - 1])
      case Err(e) => Err(e)
      case Ok(done) =>
        match CheckOverlay(|os| - 1, os[|os| - 1])
          case Err(e) => Err(e)
          case Ok(a) => Ok(done + [a])
  }

  /**
   * The conversion succeeds exactly when every overlay is valid, and then
   * it keeps their order: entry i is overlay i converted.
   */
  lemma {:induction false} ConvertOverlaysOk(os: seq<Dict>)
    ensures ConvertOverlays(os).Ok? <==> forall i :: 0 <= i < |os| ==> ValidOverlay(os[i])
    ensures ConvertOverlays(os).Ok? ==>
      forall i :: 0 <= i < |os| ==> ConvertOverlays(os).value[i] == CheckOverlay(i, os[i]).value
  {
    if |os| > 0 {
      var init := os[..|os| - 1];
      ConvertOverlaysOk(init);
      CheckOverlayPasses(|os| - 1, os[|os| - 1]);
      if ConvertOverlays(os).Ok? {
        forall i | 0 <= i < |os| ensures ValidOverlay(os[i]) && ConvertOverlays(os).value[i] == CheckOverlay(i, os[i]).value {
          if i < |os| - 1 {
            assert os[i] == init[i];
          }
        }
      }
      if forall i :: 0 <= i < |os| ==> ValidOverlay(os[i]) {
        assert forall i :: 0 <= i < |init| ==> ValidOverlay(init[i]) by {
          forall i | 0 <= i < |init| ensures ValidOverlay(init[i]) {
            assert init[i] == os[i];
          }
        }
      }
    }
  }

  /** The error raised is the one of the first invalid overlay, with its index. */
  lemma {:induction false} ConvertOverlaysFirstError(os: seq<Dict>, k: nat)
    requires k < |os| && !ValidOverlay(os[k])
    requires forall j :: 0 <= j < k ==> ValidOverlay(os[j])
    ensures ConvertOverlays(os) == Err(CheckOverlay(k, os[k]).error)
  {
    CheckOverlayPasses(k, os[k]);
    if k < |os| - 1 {
      var init := os[..|os| - 1];
      assert init[k] == os[k];
      ConvertOverlaysFirstError(init, k);
    } else {
      var init := os[..|os| - 1];
      assert forall j :: 0 <= j < |init| ==> ValidOverlay(init[j]) by {
        forall j | 0 <= j < |init| ensures ValidOverlay(init[j]) {
          assert init[j] == os[j];
        }
      }
      ConvertOverlaysOk(init);
    }
  }

  /**
   * `niivue_viewer(...)` up to the component call: the image as base64 (""
   * when there is none), the overlays converted (an empty or missing list
   * sent as None), missing settings sent as {}; or the overlay error.
   */
  function Call(niftiData: Option<seq<byte>>, filename: string, overlays: Option<seq<Dict>>,
                height: int, viewMode: string, styled: bool, settings: Option<Dict>): (r: Result<ComponentArgs>)
    ensures r.Err? ==> overlays.Some? && |overlays.value| > 0
    ensures r.Ok? ==> r.value.filename == filename && r.value.height == height
                      && r.value.viewMode == viewMode && r.value.styled == styled
    ensures r.Ok? && r.value.overlays.Some? ==> |r.value.overlays.value| > 0
    ensures r.Ok? && settings.Some? ==> r.value.settings == settings.value
  {
    var os := if overlays.Some? then overlays.value else [];
    match ConvertOverlays(os)
      case Err(e) => Err(e)
      case Ok(data) =>
        Ok(ComponentArgs(
          if niftiData.None? then "" else Encode(niftiData.value),
          filename,
          if |data| == 0 then None else Some(data),
          height, viewMode, styled,
          if settings.None? then map[] else settings.value))
  }

  /** The call with every default: no image, no overlays, 600 pixels, multiplanar, styled, empty settings. */
  lemma DefaultCall()
    ensures Call(None, "", None, 600, "multiplanar", true, None)
         == Ok(ComponentArgs("", "", None, 600, "multiplanar", true, map[]))
  {
  }

  /**
   * What the frontend gets back from a successful call: the image's bytes
   * (its base64 is "" exactly when the image is missing or empty), one
   * overlay per given overlay in the given order, and the overlay list
   * present exactly when overlays were given.
   */
  lemma CallRoundTrip(niftiData: Option<seq<byte>>, filename: string, overlays: Option<seq<Dict>>,
                      height: int, viewMode: string, styled: bool, settings: Option<Dict>)
    ensures var r := Call(niftiData, filename, overlays, height, viewMode, styled, settings);
      var os := if overlays.Some? then overlays.value else [];
      && (r.Ok? <==> forall i :: 0 <= i < |os| ==> ValidOverlay(os[i]))
      && (r.Ok? ==>
            && (niftiData.Some? ==> ForgivingDecode(r.value.niftiData) == Some(niftiData.value))
            && (r.value.niftiData == "" <==> niftiData.None? || niftiData.value == [])
            && (r.value.overlays.None? <==> |os| == 0)
            && (r.value.overlays.Some? ==>
                  && |r.value.overlays.value| == |os|
                  && forall i :: 0 <= i < |os| ==>
                       ForgivingDecode(r.value.overlays.value[i].data) == Some(os[i]["data"].bytes)))
  {
    var os := if overlays.Some? then overlays.value else [];
    ConvertOverlaysOk(os);
    if niftiData.Some? {
      RoundTrip(niftiData.value);
      EncodeLength(niftiData.value);
    }
    var r := Call(niftiData, filename, overlays, height, viewMode, styled, settings);
    if r.Ok? && r.value.overlays.Some? {
      forall i | 0 <= i < |os|
        ensures ForgivingDecode(r.value.overlays.value[i].data) == Some(os[i]["data"].bytes)
      {
        CheckOverlayCases(i, os[i]);
      }
    }
  }

  /**
   * The function itself: `nifti_base64` set first, then a loop over the
   * overlays that raises at the first failing check and otherwise appends
   * each converted overlay to `overlays_data`.
   */
  method NiivueViewer(niftiData: Option<seq<byte>>, filename: string, overlays: Option<seq<Dict>>,
                      height: int, viewMode: string, styled: bool, settings: Option<Dict>)
    returns (r: Result<ComponentArgs>)
    ensures r == Call(niftiData, filename, overlays, height, viewMode, styled, settings)
  {
    var niftiBase64 := "";
    if niftiData.Some? {
      niftiBase64 := Encode(niftiData.value);
    }
    var overlaysData: seq<OverlayArg> := [];
    var os := if overlays.Some? then overlays.value else [];
    var i := 0;
    while i < |os|
      invariant 0 <= i <= |os|
      invariant ConvertOverlays(os[..i]) == Ok(overlaysData)
    {
      var checked := CheckOverlay(i, os[i]);
      if checked.Err? {
        ConvertOverlaysFirstErrorFrom(os, i);
        return Err(checked.error);
      }
      ConvertOverlaysStep(os, i, overlaysData, checked.value);
      overlaysData := overlaysData + [checked.value];
      i := i + 1;
    }
    assert os[..i] == os;
    r := Ok(ComponentArgs(
      niftiBase64, filename,
      if |overlaysData| == 0 then None else Some(overlaysData),
      height, viewMode, styled,
      if settings.None? then map[] else settings.value));
  }

  /** One more passing overlay extends a successful prefix by its conversion. */
  lemma ConvertOverlaysStep(os: seq<Dict>, i: nat, done: seq<OverlayArg>, a: OverlayArg)
    requires i < |os| && ConvertOverlays(os[..i]) == Ok(done) && CheckOverlay(i, os[i]) == Ok(a)
    ensures ConvertOverlays(os[..i + 1]) == Ok(done + [a])
  {
    assert os[..i + 1][..i] == os[..i];
  }

  /** A failing check at `i` after a successful prefix is the error of the whole list. */
  lemma {:induction false} ConvertOverlaysFirstErrorFrom(os: seq<Dict>, i: nat)
    requires i < |os| && ConvertOverlays(os[..i]).Ok? && CheckOverlay(i, os[i]).Err?
    ensures ConvertOverlays(os) == Err(CheckOverlay(i, os[i]).error)
  {
    ConvertOverlaysOk(os[..i]);
    CheckOverlayPasses(i, os[i]);
    forall j | 0 <= j < i ensures ValidOverlay(os[j]) {
      assert os[..i][j] == os[j];
    }
    ConvertOverlaysFirstError(os, i);
  }
}
