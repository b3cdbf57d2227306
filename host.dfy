/** The animation host's scene, reduced to plain data: the names of the
    objects that exist, and the host's answers to the two hierarchy queries
    the rigging code asks (direct joint children, all joint descendants). */
module Host {
  import opened Wrappers

  datatype Scene = Scene(
    objects: set<string>,
    jointChildren: map<string, seq<string>>,
    jointDescendants: map<string, seq<string>>)

  /** `objExists(name)`: the empty name never names an object. */
  predicate ObjExists(scene: Scene, name: string): (found: bool)
    ensures name == "" ==> !found
    ensures name != "" ==> (found <==> name in scene.objects)
  {
    name != "" && name in scene.objects
  }

  /** `listRelatives(...)`: the host answers `None`, not an empty list, when
      nothing matches. */
  function ListRelatives(answers: map<string, seq<string>>, name: string): (r: Option<seq<string>>)
    ensures r.Some? ==> name in answers && r.value == answers[name] && r.value != []
    ensures r.None? <==> name !in answers || answers[name] == []
  {
    if name in answers && answers[name] != [] then Some(answers[name]) else None
  }

  /** The truth value of `listRelatives(j, c=1, type="joint")`. */
  predicate HasJointChild(scene: Scene, joint: string)
  {
    ListRelatives(scene.jointChildren, joint).Some?
  }
}
