/** The camera teleporter: a list of saved camera poses and the index of the
    selected one, moved by "Next" and "Previous location". */
module Cameras {
  import opened Wrappers

  /** A saved camera matrix; its entries are floating point and stay opaque. */
  datatype Pose = Pose(id: int)

  /** The teleporter's state as a value. */
  datatype View = View(cameras: seq<Pose>, selection: int, enabled: bool)

  /** The largest selection `increase` moves to: `Math.max(cameras.length - 1, 0)`. */
  function Top(count: nat): nat
  {
    if count == 0 then 0 else count - 1
  }

  /** The selection invariant: 0 <= selection <= max(cameras.length - 1, 0). */
  predicate InRange(v: View)
  {
    0 <= v.selection <= Top(|v.cameras|)
  }

  /** The state of a freshly constructed teleporter. */
  function Empty(): (v: View)
    ensures InRange(v) && v.cameras == []
  {
    View([], 0, false)
  }

  /** "Next": one step up, saturating at the last saved pose. */
  function Increased(v: View): (r: View)
    ensures r.cameras == v.cameras && r.enabled == v.enabled
    ensures InRange(v) ==> InRange(r)
    ensures InRange(v) && v.selection < Top(|v.cameras|) ==> r.selection == v.selection + 1
    ensures InRange(v) && v.selection == Top(|v.cameras|) ==> r == v
  {
    var top := Top(|v.cameras|);
    v.(selection := if v.selection + 1 < top then v.selection + 1 else top)
  }

  /** "Previous location": one step down, never below 0. */
  function Decreased(v: View): (r: View)
    ensures r.cameras == v.cameras && r.enabled == v.enabled
    ensures r.selection >= 0
    ensures InRange(v) ==> InRange(r)
    ensures v.selection > 0 ==> r.selection == v.selection - 1
    ensures v.selection <= 0 ==> r.selection == 0
  {
    v.(selection := if v.selection - 1 > 0 then v.selection - 1 else 0)
  }

  /** `Decreased` applied `n` times, as the ball-tracking loop does once per nearby body. */
  function DecreasedTimes(v: View, n: nat): (r: View)
    ensures r.cameras == v.cameras && r.enabled == v.enabled
    ensures InRange(v) ==> InRange(r)
    ensures v.selection >= 0 ==> r.selection == if v.selection - n > 0 then v.selection - n else 0
    decreases n
  {
    if n == 0 then v else Decreased(DecreasedTimes(v, n - 1))
  }

  /** A new pose is saved, the teleporter is enabled and the selection moves
      up once, as happens while the hit ball is being followed. */
  function Follow(v: View, pose: Pose): (r: View)
    ensures r.cameras == v.cameras + [pose] && r.enabled
    ensures InRange(v) ==> InRange(r)
    ensures InRange(v) && v.cameras != [] ==> r.selection == v.selection + 1
  {
    Increased(v.(cameras := v.cameras + [pose], enabled := true))
  }

  /** The pose the teleporter steers towards: the selected one, when it exists
      and the teleporter is enabled. */
  function DesiredCamera(v: View): (r: Option<Pose>)
    ensures r.Some? <==> v.enabled && 0 <= v.selection < |v.cameras|
    ensures r.Some? ==> r.value == v.cameras[v.selection]
  {
    if v.enabled && 0 <= v.selection < |v.cameras| then Some(v.cameras[v.selection]) else None
  }

  /** Camera_Teleporter: its fields change in place through the key handlers. */
  class CameraTeleporter {
    var cameras: seq<Pose>
    var selection: int
    var enabled: bool

    function Current(): View
      reads this
    {
      View(cameras, selection, enabled)
    }

    constructor ()
      ensures Current() == Empty()
    {
      cameras := [];
      selection := 0;
      enabled := false;
    }

    method Enable()
      modifies this
      ensures Current() == old(Current()).(enabled := true)
    {
      enabled := true;
    }

    method Disable()
      modifies this
      ensures Current() == old(Current()).(enabled := false)
    {
      enabled := false;
    }

    method Increase()
      modifies this
      ensures Current() == Increased(old(Current()))
    {
      var top := if |cameras| - 1 > 0 then |cameras| - 1 else 0;
      selection := if selection + 1 < top then selection + 1 else top;
    }

    method Decrease()
      modifies this
      ensures Current() == Decreased(old(Current()))
    {
      selection := if selection - 1 > 0 then selection - 1 else 0;
    }

    method Push(pose: Pose)
      modifies this
      ensures Current() == old(Current()).(cameras := old(cameras) + [pose])
    {
      cameras := cameras + [pose];
    }
  }
}
