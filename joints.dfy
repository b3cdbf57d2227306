/** `listHierarchy` of `rigLib/utils/joint.py`: the joints under a top
    joint, top joint first, optionally without end joints. The host's
    descendant query and its "has a joint child" query come from the
    scene. */
module Joints {
  import opened Wrappers
  import opened Host
  import opened Seqs

  /** `None.append(...)` raises: the host answers `None` for a top joint
      without joint descendants. */
  datatype HierarchyError = NoneHasNoAppend(topJoint: string)

  /** The condition of the end-joint filter, as one function value. */
  function KeepsJointParents(scene: Scene): string -> bool
  {
    j => HasJointChild(scene, j)
  }

  /** `listHierarchy(topJoint, withEndJoints)`. With end joints the result is
      the reverse of the host's descendant list followed by the top joint, so
      the top joint comes first and every descendant follows. Without end
      joints it is the order-preserving selection of that list that keeps
      exactly the joints with a joint child; the top joint is in it, first,
      exactly when it has one. A top joint without joint descendants fails. */
  method ListHierarchy(scene: Scene, topJoint: string, withEndJoints: bool)
    returns (result: Result<seq<string>, HierarchyError>)
    ensures result.Failure? <==> ListRelatives(scene.jointDescendants, topJoint).None?
    ensures result.Failure? ==> result.error == NoneHasNoAppend(topJoint)
    ensures result.Success? ==>
      var descendants := scene.jointDescendants[topJoint];
      var all := Reverse(descendants + [topJoint]);
      && (withEndJoints ==> result.value == all && |result.value| == |descendants| + 1
                            && result.value[0] == topJoint)
      && (!withEndJoints ==>
            && result.value == Filter(KeepsJointParents(scene), all)
            && IsSubsequence(result.value, all)
            && (forall j :: j in result.value <==> j in all && HasJointChild(scene, j))
            && (topJoint in result.value <==> HasJointChild(scene, topJoint))
            && (HasJointChild(scene, topJoint) ==> result.value[0] == topJoint))
  {
    var found := ListRelatives(scene.jointDescendants, topJoint);
    if found.None? {
      return Failure(NoneHasNoAppend(topJoint));
    }
    var listedJoints := found.value;
    listedJoints := listedJoints + [topJoint];
    listedJoints := Reverse(listedJoints);
    assert listedJoints[0] == topJoint;

    var completeJoints := listedJoints;
    if !withEndJoints {
      completeJoints := Filter(KeepsJointParents(scene), listedJoints);
      FilterIsSubsequence(KeepsJointParents(scene), listedJoints);
      forall j
        ensures j in completeJoints <==> j in listedJoints && HasJointChild(scene, j)
      {
        FilterMembers(KeepsJointParents(scene), listedJoints, j);
      }
      if HasJointChild(scene, topJoint) {
        FilterHead(KeepsJointParents(scene), listedJoints);
      }
    }
    return Success(completeJoints);
  }
}
