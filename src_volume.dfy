/**
 * One viewer card of the older Preact interface (`niivue/src` `Volume`):
 * a click toggles the card in the selection whenever a selection mode is
 * set, and the frame buttons ask the viewer for the next or previous frame.
 */
module SrcVolume {
  import opened Common
  import opened Instances
  import opened AppState
  import VP = VolumePanel

  /** `selectClick`: with a truthy selection mode the card is toggled, else nothing happens. */
  function SelectAfterClick(sel: seq<int>, modeSet: bool, index: int): (r: seq<int>)
    ensures !modeSet ==> r == sel
    ensures modeSet ==> (index in r <==> index !in sel)
    ensures forall i :: i != index ==> (i in r <==> i in sel)
  {
    if modeSet then VP.ToggleMember(sel, index) else sel
  }

  /**
   * The two interfaces agree in multiple selection and with no mode; in
   * single selection the React card selects only itself where this one
   * toggles, so a second click deselects it here.
   */
  lemma AgreesWithReact(sel: seq<int>, index: int)
    ensures SelectAfterClick(sel, true, index) == VP.SelectAfterClick(sel, MultipleSelection, index)
    ensures SelectAfterClick(sel, false, index) == VP.SelectAfterClick(sel, NoSelection, index)
    ensures index !in SelectAfterClick([index], true, index)
    ensures VP.SelectAfterClick([index], SingleSelection, index) == [index]
  {
  }

  /** `dispName`: a name longer than 20 characters is shown as "..." and `name.slice(-20)`. */
  function DispName(name: string): (r: string)
    ensures r == VP.DispName(name)
    ensures |r| <= 23 && (EndsWith(name, r) || EndsWith(name, r[3..]))
  {
    if |name| > 20 then "..." + name[|name| - 20..] else name
  }

  /**
   * `is4D`: `nv.volumes[0]?.nFrame4D > 1`, where a missing first volume
   * compares as false. The React card's extra truthiness test changes
   * nothing, so both cards show the 4D navigator for the same viewers.
   */
  predicate Is4D(nv: Instance)
    ensures Is4D(nv) <==> VP.Is4D(nv)
  {
    if nv.volumes == [] then false else nv.volumes[0].nFrame4D > 1
  }

  /**
   * The frame request of the next (`delta` 1) or previous (-1) button:
   * `setFrame4D` on the first volume with its current frame plus `delta`;
   * with no volume the handler throws.
   */
  function FrameRequest(nv: Instance, delta: int): (r: Result<ViewerCall>)
    ensures r.Ok? <==> |nv.volumes| > 0
    ensures r.Ok? ==> r.value == SetFrame4D(nv.volumes[0].id, nv.volumes[0].frame4D + delta)
  {
    if |nv.volumes| == 0 then Err("Cannot read properties of undefined (reading 'frame4D')")
    else Ok(SetFrame4D(nv.volumes[0].id, nv.volumes[0].frame4D + delta))
  }

  /** The card's instance, with the viewer calls it has made, and the errors its handlers threw. */
  class SrcVolumeCard {
    var nv: Instance
    var thrown: seq<string>

    constructor (instance: Instance)
      ensures nv == instance && thrown == []
    {
      nv := instance;
      thrown := [];
    }

    /** `nextVolume` (`delta` 1) and `prevVolume` (`delta` -1). */
    method Step(delta: int)
      requires delta == 1 || delta == -1
      modifies this
      ensures var req := FrameRequest(old(nv), delta);
        && (req.Ok? ==> nv == old(nv).(calls := old(nv).calls + [req.value]) && thrown == old(thrown))
        && (req.Err? ==> nv == old(nv) && thrown == old(thrown) + [req.error])
    {
      if |nv.volumes| == 0 {
        thrown := thrown + ["Cannot read properties of undefined (reading 'frame4D')"];
      } else {
        var current := nv.volumes[0].frame4D;
        nv := nv.(calls := nv.calls + [SetFrame4D(nv.volumes[0].id, current + 1 * delta)]);
      }
    }
  }

  /**
   * Both buttons ask from the frame the viewer reports, so "next" then
   * "previous" before the viewer moves asks for the frames on either side.
   */
  lemma NextThenPrev(nv: Instance)
    requires |nv.volumes| > 0
    ensures FrameRequest(nv, 1).value.frame == nv.volumes[0].frame4D + 1
    ensures FrameRequest(nv, -1).value.frame == nv.volumes[0].frame4D - 1
    ensures FrameRequest(nv, 1).value.volumeId == FrameRequest(nv, -1).value.volumeId
  {
  }
}
