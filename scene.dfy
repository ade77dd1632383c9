/**
 * The loaded avatar's scene graph, as the controllers see it.
 *
 * `avatar.traverse(cb)` visits every node once; the model represents a
 * traversal by the sequence of nodes in the order they are visited.
 */
module Scene {

  /**
   * One node of the avatar. Only the properties the controllers read are
   * kept: its name, whether it is a bone or a mesh, and a mesh's blend-shape
   * (morph target) dictionary and influence array. The dictionary and the
   * array reference never change; the influence values are written in place.
   * `morphTargetInfluences` is null when the node carries no morph targets.
   */
  class Node {
    const name: string
    const isBone: bool
    const isMesh: bool
    const morphTargetDictionary: map<string, nat>
    const morphTargetInfluences: array?<real>

    constructor (name: string, isBone: bool, isMesh: bool,
                 morphTargetDictionary: map<string, nat>, morphTargetInfluences: array?<real>)
      ensures this.name == name && this.isBone == isBone && this.isMesh == isMesh
      ensures this.morphTargetDictionary == morphTargetDictionary
      ensures this.morphTargetInfluences == morphTargetInfluences
    {
      this.name := name;
      this.isBone := isBone;
      this.isMesh := isMesh;
      this.morphTargetDictionary := morphTargetDictionary;
      this.morphTargetInfluences := morphTargetInfluences;
    }
  }

  /** The test `node.isMesh && node.morphTargetInfluences` (any array, even an empty one, is truthy). */
  predicate HasMorphTargets(n: Node) {
    n.isMesh && n.morphTargetInfluences != null
  }

  /** Every channel of the dictionary names a slot of an influence array of the given length. */
  predicate IndicesInRange(dictionary: map<string, nat>, length: nat) {
    forall channel :: channel in dictionary ==> dictionary[channel] < length
  }

  /** A mesh with morph targets whose dictionary indexes its own influence array. */
  predicate WellFormedMorphMesh(n: Node) {
    HasMorphTargets(n) && IndicesInRange(n.morphTargetDictionary, n.morphTargetInfluences.Length)
  }
}
