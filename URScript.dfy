/** The URScript commands the arm controllers send to a Universal Robots controller over its
    secondary interface, as values rather than text: the `:.5f` / `:.4f` rendering of the
    numbers is not modelled, so a command is its name and its arguments. */
module URScript {
  import opened Wrappers

  /** A pose as the JSON messages and pose files give it: a map with position keys x, y, z
      (metres) and rotation-vector keys rx, ry, rz (radians). */
  type PoseMap = map<string, real>

  /** Whether all six keys are present (otherwise formatting the command raises KeyError). */
  predicate HasPoseKeys(p: PoseMap) {
    "x" in p && "y" in p && "z" in p && "rx" in p && "ry" in p && "rz" in p
  }

  /** The six numbers of a pose in the order URScript's `p[...]` takes them. */
  function PoseVector(p: PoseMap): seq<real>
    requires HasPoseKeys(p)
  {
    [p["x"], p["y"], p["z"], p["rx"], p["ry"], p["rz"]]
  }

  /** The pose file both pose scripts load: the corner poses in order, and optional home and drop poses. */
  datatype PoseFile = PoseFile(corners: Option<seq<PoseMap>>, home: Option<PoseMap>, drop: Option<PoseMap>)

  datatype Command =
    | TextMsg(text: string)
    | MoveL(pose: seq<real>, a: real, v: real)
    | MoveJ(pose: seq<real>, a: real, v: real)
    | SpeedL(velocity: seq<real>, a: real, t: real)
    | StopL(a: real)
}
