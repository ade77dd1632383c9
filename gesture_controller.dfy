/**
 * The bone registry and the waving clip (`GestureController`).
 *
 * The controller indexes the avatar's bones by name and, when both arms are
 * present, builds a looping clip of six keyframe tracks that raise, spread
 * and swing both arms, and hands it to the animation mixer to play.
 */
module Gesture {
  import opened Scene

  /** A rotation axis of a joint. */
  datatype Axis = X | Y | Z

  /**
   * A numeric keyframe track on `bone.rotation[axis]`: the value at each key
   * time. Three.js names the target by the string `"<bone>.rotation[<axis>]"`.
   */
  datatype Track = Track(bone: string, axis: Axis, times: seq<real>, values: seq<real>)

  /** An animation clip: a name, a declared duration (-1: computed from the tracks) and its tracks. */
  datatype Clip = Clip(name: string, duration: real, tracks: seq<Track>)

  const RightArm: string := "RightArm"
  const LeftArm: string := "LeftArm"

  /** The length of one wave cycle, in seconds. */
  const WaveDuration: real := 4.0

  /** The name → bone dictionary after visiting `nodes` in order; a later bone overwrites an earlier one of the same name. */
  function BoneRegistry(nodes: seq<Node>): map<string, Node>
  {
    if nodes == [] then map[]
    else
      var registry := BoneRegistry(nodes[..|nodes| - 1]);
      var last := nodes[|nodes| - 1];
      if last.isBone then registry[last.name := last] else registry
  }

  /** A name is registered exactly when some visited bone carries it. */
  lemma {:induction false} RegistryNames(nodes: seq<Node>, name: string)
    ensures name in BoneRegistry(nodes) <==>
            exists k :: 0 <= k < |nodes| && nodes[k].isBone && nodes[k].name == name
  {
    if nodes != [] {
      var init := nodes[..|nodes| - 1];
      RegistryNames(init, name);
      if name in BoneRegistry(init) {
        var k :| 0 <= k < |init| && init[k].isBone && init[k].name == name;
        assert nodes[k] == init[k];
      }
      if exists k :: 0 <= k < |nodes| && nodes[k].isBone && nodes[k].name == name {
        var k :| 0 <= k < |nodes| && nodes[k].isBone && nodes[k].name == name;
        if k < |init| {
          assert init[k] == nodes[k];
        }
      }
    }
  }

  /** Every registered entry is a visited bone stored under its own name. */
  lemma {:induction false} RegistryHoldsBones(nodes: seq<Node>, name: string)
    requires name in BoneRegistry(nodes)
    ensures BoneRegistry(nodes)[name] in nodes
    ensures BoneRegistry(nodes)[name].isBone && BoneRegistry(nodes)[name].name == name
  {
    var init := nodes[..|nodes| - 1];
    var last := nodes[|nodes| - 1];
    if !(last.isBone && last.name == name) {
      RegistryHoldsBones(init, name);
    }
  }

  /** With duplicate names, the bone visited last is the one stored. */
  lemma {:induction false} RegistryLastWins(nodes: seq<Node>, k: nat)
    requires k < |nodes| && nodes[k].isBone
    requires forall j :: k < j < |nodes| ==> !(nodes[j].isBone && nodes[j].name == nodes[k].name)
    ensures nodes[k].name in BoneRegistry(nodes) && BoneRegistry(nodes)[nodes[k].name] == nodes[k]
  {
    if k < |nodes| - 1 {
      var init := nodes[..|nodes| - 1];
      RegistryLastWins(init, k);
    }
  }

  /** `createAndPlayWavingAnimation`'s `!rightArm || !leftArm` guard, negated: both arms are registered. */
  predicate ArmsPresent(bones: map<string, Node>) {
    RightArm in bones && LeftArm in bones
  }

  predicate StrictlyIncreasing(s: seq<real>) {
    forall i, j :: 0 <= i < j < |s| ==> s[i] < s[j]
  }

  /** A track has at least one key, increasing key times and one value per time. */
  predicate WellFormedTrack(t: Track) {
    |t.times| > 0 && |t.times| == |t.values| && StrictlyIncreasing(t.times)
  }

  function Negated(s: seq<real>): (r: seq<real>)
    ensures |r| == |s| && forall i :: 0 <= i < |s| ==> r[i] == -s[i]
  {
    seq(|s|, i requires 0 <= i < |s| => -s[i])
  }

  /** The time of a track's last key. */
  function LastKeyTime(t: Track): real
    requires |t.times| > 0
  {
    t.times[|t.times| - 1]
  }

  /** The latest key time over well-formed tracks (0 for no tracks). */
  function LatestKeyTime(tracks: seq<Track>): real
    requires forall t :: t in tracks ==> WellFormedTrack(t)
  {
    if tracks == [] then 0.0
    else
      assert tracks[0] in tracks && WellFormedTrack(tracks[0]);
      if |tracks| == 1 then LastKeyTime(tracks[0])
      else
        var rest := LatestKeyTime(tracks[1..]);
        if LastKeyTime(tracks[0]) < rest then rest else LastKeyTime(tracks[0])
  }

  /** No key of any track lies after the latest key time, and, for a non-empty clip, some track ends there. */
  lemma {:induction false} LatestKeyTimeIsMaximum(tracks: seq<Track>)
    requires forall t :: t in tracks ==> WellFormedTrack(t)
    ensures forall t, i :: t in tracks && 0 <= i < |t.times| ==> t.times[i] <= LatestKeyTime(tracks)
    ensures tracks != [] ==> exists t :: t in tracks && WellFormedTrack(t) && LastKeyTime(t) == LatestKeyTime(tracks)
  {
    if tracks != [] {
      var t0 := tracks[0];
      assert t0 in tracks;
      LatestKeyTimeIsMaximum(tracks[1..]);
      forall t, i | t in tracks && 0 <= i < |t.times|
        ensures t.times[i] <= LatestKeyTime(tracks)
      {
        if t == t0 {
          assert i == |t.times| - 1 || t.times[i] < t.times[|t.times| - 1];
        } else {
          assert t in tracks[1..];
        }
      }
      if tracks[1..] != [] && LastKeyTime(t0) < LatestKeyTime(tracks[1..]) {
        var t :| t in tracks[1..] && WellFormedTrack(t) && LastKeyTime(t) == LatestKeyTime(tracks[1..]);
        assert t in tracks;
      } else {
        assert WellFormedTrack(t0) && LastKeyTime(t0) == LatestKeyTime(tracks);
      }
    }
  }

  // The six tracks of the waving clip: raise (Z) and spread (Y) each arm over
  // the first second, then swing each arm forward and back (X) from second 1 to 4.
  const RightArmZTrack: Track := Track(RightArm, Z, [0.0, 1.0], [0.0, -1.5])
  const RightArmYTrack: Track := Track(RightArm, Y, [0.0, 1.0], [0.0, -0.5])
  const LeftArmZTrack: Track := Track(LeftArm, Z, [0.0, 1.0], [0.0, 1.5])
  const LeftArmYTrack: Track := Track(LeftArm, Y, [0.0, 1.0], [0.0, 0.5])
  const RightArmXTrack: Track := Track(RightArm, X, [1.0, 2.0, 3.0, 4.0], [0.0, -0.5, 0.5, 0.0])
  const LeftArmXTrack: Track := Track(LeftArm, X, [1.0, 2.0, 3.0, 4.0], [0.0, -0.5, 0.5, 0.0])

  /** The `waving-loop` clip, looping, its length left to the tracks (declared duration -1). */
  function WavingClip(): (c: Clip)
    ensures c.name == "waving-loop" && c.duration == -1.0 && |c.tracks| == 6
  {
    Clip("waving-loop", -1.0,
         [RightArmZTrack, RightArmYTrack, LeftArmZTrack, LeftArmYTrack, RightArmXTrack, LeftArmXTrack])
  }

  /** Every track of the clip has strictly increasing key times and one value per key time. */
  lemma WavingTracksWellFormed()
    ensures forall t :: t in WavingClip().tracks ==> WellFormedTrack(t)
  {
    assert StrictlyIncreasing([0.0, 1.0]);
    assert StrictlyIncreasing([1.0, 2.0, 3.0, 4.0]);
  }

  /** The clip animates exactly the six (arm, axis) pairs of the two arms, each once. */
  lemma WavingTargetsDistinct()
    ensures forall t :: t in WavingClip().tracks ==> t.bone == RightArm || t.bone == LeftArm
    ensures forall i, j :: 0 <= i < j < |WavingClip().tracks| ==>
              (WavingClip().tracks[i].bone, WavingClip().tracks[i].axis) != (WavingClip().tracks[j].bone, WavingClip().tracks[j].axis)
  {
  }

  /** The clip holds the six named tracks and nothing else. */
  lemma WavingTrackCases(t: Track)
    requires t in WavingClip().tracks
    ensures t.bone == RightArm ==> t == RightArmZTrack || t == RightArmYTrack || t == RightArmXTrack
    ensures t.bone == LeftArm ==> t == LeftArmZTrack || t == LeftArmYTrack || t == LeftArmXTrack
    ensures t.bone == RightArm || t.bone == LeftArm
  {
  }

  /** The left arm mirrors the right: raise and spread values negated, swing identical, same key times. */
  lemma WavingArmsMirrored()
    ensures forall r, l :: r in WavingClip().tracks && l in WavingClip().tracks && r.bone == RightArm && l.bone == LeftArm && r.axis == l.axis ==>
              l.times == r.times && l.values == (if r.axis == X then r.values else Negated(r.values))
  {
    var tracks := WavingClip().tracks;
    assert Negated(RightArmZTrack.values) == LeftArmZTrack.values;
    assert Negated(RightArmYTrack.values) == LeftArmYTrack.values;
    forall r, l | r in tracks && l in tracks && r.bone == RightArm && l.bone == LeftArm && r.axis == l.axis
      ensures l.times == r.times && l.values == (if r.axis == X then r.values else Negated(r.values))
    {
      WavingTrackCases(r);
      WavingTrackCases(l);
      match r.axis
      case Z => assert r == RightArmZTrack && l == LeftArmZTrack;
      case Y => assert r == RightArmYTrack && l == LeftArmYTrack;
      case X => assert r == RightArmXTrack && l == LeftArmXTrack;
    }
  }

  /** Each swing track starts and ends at rest (0), so the loop closes without a jump on X. */
  lemma WavingSwingClosed()
    ensures forall t :: t in WavingClip().tracks && t.axis == X ==> t.values[0] == 0.0 && t.values[|t.values| - 1] == 0.0
  {
  }

  /** The latest key over all six tracks is at the declared wave duration, 4 seconds. */
  lemma WavingLatestKeyIsWaveDuration()
    ensures forall t :: t in WavingClip().tracks ==> WellFormedTrack(t)
    ensures LatestKeyTime(WavingClip().tracks) == WaveDuration
  {
    WavingTracksWellFormed();
  }

  class GestureController {
    var bones: map<string, Node>
    /** The clips handed to the animation mixer and played, oldest first. */
    var actions: seq<Clip>

    /** Registers every visited bone under its name, then tries to start the waving clip. */
    constructor (traversal: seq<Node>)
      ensures bones == BoneRegistry(traversal)
      ensures actions == if ArmsPresent(bones) then [WavingClip()] else []
    {
      bones := map[];
      actions := [];
      new;
      var i := 0;
      while i < |traversal|
        invariant 0 <= i <= |traversal|
        invariant bones == BoneRegistry(traversal[..i])
        invariant actions == []
      {
        var node := traversal[i];
        assert traversal[..i + 1][..i] == traversal[..i];
        if node.isBone {
          bones := bones[node.name := node];
        }
        i := i + 1;
      }
      assert traversal[..i] == traversal;
      CreateAndPlayWavingAnimation();
    }

    /** Builds and plays the waving clip when both arm bones are registered; otherwise does nothing. */
    method CreateAndPlayWavingAnimation()
      modifies this`actions
      ensures ArmsPresent(bones) ==> actions == old(actions) + [WavingClip()]
      ensures !ArmsPresent(bones) ==> actions == old(actions)
    {
      if !(RightArm in bones) || !(LeftArm in bones) {
        return;
      }
      var clip := WavingClip();
      actions := actions + [clip];
    }
  }
}
