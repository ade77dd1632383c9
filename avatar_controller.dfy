/**
 * The facial blend-shape and lip-sync controller (`AvatarController`).
 *
 * It collects the avatar's meshes that carry morph targets, writes named
 * blend-shape channels on all of them, and while the avatar is talking
 * drives the `mouthOpen` channel from an oscillator sample each frame.
 */
module Avatar {
  import opened Scene
  import Gesture

  /** The blend-shape channel driven by lip-sync. */
  const MouthOpen: string := "mouthOpen"

  /** The multiplier applied to the oscillator's [0, 1] value. */
  const LipSyncGain: real := 1.2

  /** The meshes with morph targets among `nodes`, in traversal order. */
  function MorphMeshes(nodes: seq<Node>): seq<Node>
  {
    if nodes == [] then []
    else
      var last := nodes[|nodes| - 1];
      MorphMeshes(nodes[..|nodes| - 1]) + (if HasMorphTargets(last) then [last] else [])
  }

  /** Exactly the visited nodes that are meshes with morph targets are collected. */
  lemma {:induction false} MorphMeshesMembers(nodes: seq<Node>, n: Node)
    ensures n in MorphMeshes(nodes) <==> n in nodes && HasMorphTargets(n)
  {
    if nodes != [] {
      var init := nodes[..|nodes| - 1];
      MorphMeshesMembers(init, n);
      assert nodes == init + [nodes[|nodes| - 1]];
    }
  }

  /** Collection follows traversal order: a later part of the walk adds its meshes after the earlier part's. */
  lemma {:induction false} MorphMeshesAppend(front: seq<Node>, back: seq<Node>)
    ensures MorphMeshes(front + back) == MorphMeshes(front) + MorphMeshes(back)
  {
    if back == [] {
      assert front + back == front;
    } else {
      var init := back[..|back| - 1];
      MorphMeshesAppend(front, init);
      assert (front + back)[..|front + back| - 1] == front + init;
    }
  }

  /**
   * The influence values of one mesh after `setExpression(channel, value)`:
   * the slot the dictionary gives for `channel` takes `value`; a mesh whose
   * dictionary lacks the channel keeps all its values.
   */
  function SetChannel(weights: seq<real>, dictionary: map<string, nat>, channel: string, value: real): (r: seq<real>)
    requires IndicesInRange(dictionary, |weights|)
    ensures |r| == |weights| && IndicesInRange(dictionary, |r|)
    ensures channel in dictionary ==> r[dictionary[channel]] == value
    ensures forall j :: 0 <= j < |r| && (channel !in dictionary || j != dictionary[channel]) ==> r[j] == weights[j]
  {
    if channel in dictionary then weights[dictionary[channel] := value] else weights
  }

  /** Writing the same channel with the same value twice gives the state one write gives. */
  lemma SetChannelIdempotent(weights: seq<real>, dictionary: map<string, nat>, channel: string, value: real)
    requires IndicesInRange(dictionary, |weights|)
    ensures SetChannel(SetChannel(weights, dictionary, channel, value), dictionary, channel, value)
            == SetChannel(weights, dictionary, channel, value)
  {
  }

  /** After a write of `value`, the channel reads `value` whatever it held before. */
  lemma SetChannelReadsBack(weights: seq<real>, dictionary: map<string, nat>, channel: string, value: real)
    requires IndicesInRange(dictionary, |weights|)
    requires channel in dictionary
    ensures SetChannel(weights, dictionary, channel, value)[dictionary[channel]] == value
  {
  }

  /** The lip-sync value for an oscillator sample `s` (`Math.sin(time * 20)` in the avatar's update loop). */
  function MouthOpenValue(s: real): real
  {
    (s + 1.0) / 2.0 * LipSyncGain
  }

  /** For every sample a sine can produce, the mouth value lies in [0, gain]. */
  lemma MouthOpenInRange(s: real)
    requires -1.0 <= s <= 1.0
    ensures 0.0 <= MouthOpenValue(s) <= LipSyncGain
  {
  }

  /** The gain is above 1, so lip-sync can drive `mouthOpen` past 1. */
  lemma MouthOpenCanExceedOne()
    ensures exists s :: -1.0 <= s <= 1.0 && MouthOpenValue(s) > 1.0
  {
    assert MouthOpenValue(1.0) == 1.2;
  }

  class AvatarController {
    var isTalking: bool
    var morphTargetMeshes: seq<Node>
    const gestureController: Gesture.GestureController

    /**
     * Each collected mesh has morph targets whose dictionary indexes its
     * array, and no two collected meshes share an influence array.
     */
    ghost predicate Valid()
      reads this
    {
      (forall k :: 0 <= k < |morphTargetMeshes| ==> WellFormedMorphMesh(morphTargetMeshes[k]))
      && (forall j, k :: 0 <= j < k < |morphTargetMeshes| ==>
            morphTargetMeshes[j].morphTargetInfluences != morphTargetMeshes[k].morphTargetInfluences)
    }

    /** The influence arrays of the collected meshes: all that the controller writes. */
    ghost function Influences(): set<array?<real>>
      reads this
    {
      set k | 0 <= k < |morphTargetMeshes| :: morphTargetMeshes[k].morphTargetInfluences
    }

    /**
     * Builds the gesture controller over the same scene, then walks the scene
     * collecting the meshes with morph targets. The scene's meshes are
     * expected to have their own influence arrays, indexed by their own
     * dictionaries.
     */
    constructor (traversal: seq<Node>)
      requires forall j, k :: 0 <= j < k < |traversal| ==> traversal[j] != traversal[k]
      requires forall n :: n in traversal && HasMorphTargets(n) ==> WellFormedMorphMesh(n)
      requires forall a, b :: a in traversal && b in traversal && a != b && HasMorphTargets(a) && HasMorphTargets(b)
                 ==> a.morphTargetInfluences != b.morphTargetInfluences
      ensures Valid()
      ensures !isTalking
      ensures morphTargetMeshes == MorphMeshes(traversal)
      ensures fresh(gestureController)
      ensures gestureController.bones == Gesture.BoneRegistry(traversal)
      ensures gestureController.actions ==
                if Gesture.ArmsPresent(gestureController.bones) then [Gesture.WavingClip()] else []
    {
      isTalking := false;
      gestureController := new Gesture.GestureController(traversal);
      var meshes: seq<Node> := [];
      var i := 0;
      while i < |traversal|
        invariant 0 <= i <= |traversal|
        invariant meshes == MorphMeshes(traversal[..i])
        invariant forall m :: m in meshes ==> m in traversal[..i] && HasMorphTargets(m)
        invariant forall j, k :: 0 <= j < k < |meshes| ==> meshes[j].morphTargetInfluences != meshes[k].morphTargetInfluences
      {
        var node := traversal[i];
        assert traversal[..i + 1][..i] == traversal[..i];
        if node.isMesh && node.morphTargetInfluences != null {
          assert node !in traversal[..i];
          forall j | 0 <= j < |meshes|
            ensures meshes[j].morphTargetInfluences != node.morphTargetInfluences
          {
            assert meshes[j] in meshes;
          }
          meshes := meshes + [node];
        }
        i := i + 1;
      }
      assert traversal[..i] == traversal;
      morphTargetMeshes := meshes;
    }

    /** Talking starts; no influence is touched. */
    method StartTalking()
      requires Valid()
      modifies this`isTalking
      ensures Valid() && isTalking
      ensures forall k :: 0 <= k < |morphTargetMeshes| ==>
                morphTargetMeshes[k].morphTargetInfluences[..] == old(morphTargetMeshes[k].morphTargetInfluences[..])
    {
      isTalking := true;
    }

    /** Talking stops and the mouth is closed at once on every mesh that has the channel. */
    method StopTalking()
      requires Valid()
      modifies this`isTalking, Influences()
      ensures Valid() && !isTalking
      ensures forall k :: 0 <= k < |morphTargetMeshes| ==>
                var m := morphTargetMeshes[k];
                m.morphTargetInfluences[..] == SetChannel(old(m.morphTargetInfluences[..]), m.morphTargetDictionary, MouthOpen, 0.0)
      ensures forall k :: 0 <= k < |morphTargetMeshes| && MouthOpen in morphTargetMeshes[k].morphTargetDictionary ==>
                var m := morphTargetMeshes[k];
                m.morphTargetInfluences[m.morphTargetDictionary[MouthOpen]] == 0.0
    {
      isTalking := false;
      SetExpression(MouthOpen, 0.0);
    }

    /**
     * Writes `value` to channel `expressionName` of every collected mesh whose
     * dictionary defines it; other meshes and other slots are left alone.
     */
    method SetExpression(expressionName: string, value: real)
      requires Valid()
      modifies Influences()
      ensures Valid()
      ensures forall k :: 0 <= k < |morphTargetMeshes| ==>
                var m := morphTargetMeshes[k];
                m.morphTargetInfluences[..] == SetChannel(old(m.morphTargetInfluences[..]), m.morphTargetDictionary, expressionName, value)
    {
      var i := 0;
      while i < |morphTargetMeshes|
        invariant 0 <= i <= |morphTargetMeshes|
        invariant forall k :: 0 <= k < i ==>
                    var m := morphTargetMeshes[k];
                    m.morphTargetInfluences[..] == SetChannel(old(m.morphTargetInfluences[..]), m.morphTargetDictionary, expressionName, value)
        invariant forall k :: i <= k < |morphTargetMeshes| ==>
                    morphTargetMeshes[k].morphTargetInfluences[..] == old(morphTargetMeshes[k].morphTargetInfluences[..])
      {
        var mesh := morphTargetMeshes[i];
        if expressionName in mesh.morphTargetDictionary {
          var index := mesh.morphTargetDictionary[expressionName];
          mesh.morphTargetInfluences[index] := value;
        }
        i := i + 1;
      }
    }

    /**
     * The lip-sync part of the per-frame update: while talking, `mouthOpen`
     * takes the value derived from the oscillator sample; otherwise nothing
     * is written.
     */
    method Update(oscillatorSample: real)
      requires Valid()
      modifies Influences()
      ensures Valid()
      ensures old(isTalking) ==> forall k :: 0 <= k < |morphTargetMeshes| ==>
                var m := morphTargetMeshes[k];
                m.morphTargetInfluences[..] == SetChannel(old(m.morphTargetInfluences[..]), m.morphTargetDictionary, MouthOpen, MouthOpenValue(oscillatorSample))
      ensures !old(isTalking) ==> forall k :: 0 <= k < |morphTargetMeshes| ==>
                morphTargetMeshes[k].morphTargetInfluences[..] == old(morphTargetMeshes[k].morphTargetInfluences[..])
    {
      if isTalking {
        SetExpression(MouthOpen, MouthOpenValue(oscillatorSample));
      }
    }
  }
}
