/** Deformation setup of the komodo rig (`komodoRig/komodo_deform.py`):
    the names of the twist joints made beside each limb joint, the
    per-object skin-weight file paths, and the filter that decides which
    files of the weights directory are loaded. The weight files themselves
    and every host command are outside the model; the model records what
    would be created, saved or loaded. */
module Deform {
  import opened Wrappers
  import opened Host
  import opened Seqs
  import opened PyRuntime
  import Names

  /** Weights live under `<project>/<character>/weights/skinCluster`, one
      `<object>.swt` file per object. */
  const SkinWeightsDir := "weights/skinCluster"
  const SwExt := ".swt"

  /** The group all twist-joint groups are created under. */
  const TwistJointsMainGroup := "twistJoints_grp"

  /** The limb joints `build` makes twist joints for, in this order. */
  const RefTwistJoints := ["l_elbow1_jnt", "l_knee1_jnt", "r_elbow1_jnt", "r_knee1_jnt"]

  // ---------------------------------------------------------------- twist joints

  /** The twist prefix of a joint: its name without the `_suffix` segment and
      without the character before it (Python's `prefix[:-1]`, which leaves
      an empty prefix empty). */
  function TwistPrefix(parentJnt: string): (p: string)
    ensures p <= Names.RemoveSuffix(parentJnt) && p <= parentJnt
    ensures |p| == if Names.RemoveSuffix(parentJnt) == "" then 0 else |Names.RemoveSuffix(parentJnt)| - 1
  {
    var prefix := Names.RemoveSuffix(parentJnt);
    if prefix == "" then prefix else prefix[..|prefix| - 1]
  }

  /** The objects made for one twist joint pair. */
  datatype TwistNames = TwistNames(group: string, parentJoint: string, childJoint: string, ikHandle: string)

  /** The names `maketwistJoints` gives the objects it makes for a prefix:
      each starts with the prefix. */
  function TwistNamesFor(prefix: string): (n: TwistNames)
    ensures prefix <= n.group && prefix <= n.parentJoint && prefix <= n.childJoint && prefix <= n.ikHandle
  {
    TwistNames(prefix + "TwistJoint_grp", prefix + "Twist1_jnt", prefix + "Twist2_jnt", prefix + "TwistJoint_ikh")
  }

  /** One twist setup: the new objects, the group its own group is created
      under, the limb joint the first twist joint duplicates and is
      point-constrained to, and the limb joint's first joint child, which the
      second twist joint duplicates and the IK handle is parent-constrained
      to. */
  datatype TwistSetup = TwistSetup(names: TwistNames, groupParent: string, source: string, sourceChild: string)

  /** `listRelatives(parentJnt, c=1, type="joint")[0]` on `None` raises. */
  datatype TwistError = NoneIsNotSubscriptable(joint: string)

  /** The setup made for a limb joint that has a joint child. */
  function SetupFor(scene: Scene, parentJnt: string): TwistSetup
    requires HasJointChild(scene, parentJnt)
  {
    TwistSetup(TwistNamesFor(TwistPrefix(parentJnt)), TwistJointsMainGroup, parentJnt, ListRelatives(scene.jointChildren, parentJnt).value[0])
  }

  /** `maketwistJoints(baseRig, parentJoints)`: one setup per joint, in list
      order, each grouped under `twistJoints_grp`, until a joint without a
      joint child aborts the loop. */
  method MakeTwistJoints(scene: Scene, parentJoints: seq<string>)
    returns (setups: seq<TwistSetup>, error: Option<TwistError>)
    ensures error.None? ==> |setups| == |parentJoints|
    ensures error.Some? ==>
      && |setups| < |parentJoints|
      && !HasJointChild(scene, parentJoints[|setups|])
      && error.value == NoneIsNotSubscriptable(parentJoints[|setups|])
    ensures |setups| <= |parentJoints|
    ensures forall i :: 0 <= i < |setups| ==>
      HasJointChild(scene, parentJoints[i]) && setups[i] == SetupFor(scene, parentJoints[i])
    ensures forall s :: s in setups ==> s.groupParent == TwistJointsMainGroup
  {
    var twistJointsMainGrp := TwistJointsMainGroup;
    setups, error := [], None;
    for i := 0 to |parentJoints|
      invariant |setups| == i
      invariant forall k :: 0 <= k < i ==>
        HasJointChild(scene, parentJoints[k]) && setups[k] == SetupFor(scene, parentJoints[k])
    {
      var parentJnt := parentJoints[i];
      var prefix := Names.RemoveSuffix(parentJnt);
      prefix := if prefix == "" then prefix else prefix[..|prefix| - 1];
      var children := ListRelatives(scene.jointChildren, parentJnt);
      if children.None? {
        return setups, Some(NoneIsNotSubscriptable(parentJnt));
      }
      var parentJntChild := children.value[0];
      var names := TwistNames(prefix + "TwistJoint_grp", prefix + "Twist1_jnt",
                              prefix + "Twist2_jnt", prefix + "TwistJoint_ikh");
      setups := setups + [TwistSetup(names, twistJointsMainGrp, parentJnt, parentJntChild)];
    }
  }

  /** The twist prefixes `build` uses. */
  const RefTwistPrefixes := ["l_elbow", "l_knee", "r_elbow", "r_knee"]

  /** The four limb joints give the prefixes `l_elbow`, `l_knee`, `r_elbow`
      and `r_knee`, in order. */
  lemma {:induction false} RefTwistJointPrefixes()
    ensures Map(TwistPrefix, RefTwistJoints) == RefTwistPrefixes
  {
    var prefixes := Map(TwistPrefix, RefTwistJoints);
    forall i | 0 <= i < 4 ensures prefixes[i] == RefTwistPrefixes[i] {
      TwistPrefixOfRefJoint(i);
    }
  }

  /** The position of the underscore before the `jnt` suffix of each limb joint. */
  const RefUnderscores := [8, 7, 8, 7]

  lemma {:induction false} TwistPrefixOfRefJoint(i: nat)
    requires i < 4
    ensures TwistPrefix(RefTwistJoints[i]) == RefTwistPrefixes[i]
  {
    var j, k := RefTwistJoints[i], RefUnderscores[i];
    assert j[k] == '_' && forall m :: k < m < |j| ==> j[m] != '_';
    assert j[..k - 1] == RefTwistPrefixes[i];
    PrefixOf(j, k, j[..k - 1]);
  }

  /** A joint whose last underscore is at `k` has the first `k - 1`
      characters as its twist prefix. */
  lemma {:induction false} PrefixOf(joint: string, k: nat, expected: string)
    requires 0 < k < |joint| && joint[k] == '_'
    requires forall j :: k < j < |joint| ==> joint[j] != '_'
    requires expected == joint[..k - 1]
    ensures TwistPrefix(joint) == expected
  {
    LastIndexOfUnique(joint, '_', k);
    Names.RemoveSuffixCutsAtLastUnderscore(joint);
  }

  /** The four objects of a twist setup have four different names. */
  lemma {:induction false} TwistNamesDistinct(prefix: string)
    ensures var n := TwistNamesFor(prefix);
      && n.group != n.parentJoint && n.group != n.childJoint && n.group != n.ikHandle
      && n.parentJoint != n.childJoint && n.parentJoint != n.ikHandle && n.childJoint != n.ikHandle
  {
    var n := TwistNamesFor(prefix);
    var p := |prefix|;
    assert n.group[p + 11] == 'g' && n.ikHandle[p + 11] == 'i';
    assert n.parentJoint[p + 5] == '1' && n.childJoint[p + 5] == '2';
  }

  // ---------------------------------------------------------------- weight files

  /** `os.path.join(mainProjectPath, characterName, skinWeightsDir, obj + swExt)`:
      the file name always ends with `<obj>.swt`. */
  function WeightFile(mainProjectPath: string, characterName: string, obj: string): (path: string)
    ensures |obj + SwExt| <= |path| && path[|path| - |obj + SwExt|..] == obj + SwExt
  {
    Join(Join(Join(mainProjectPath, characterName), SkinWeightsDir), obj + SwExt)
  }

  /** The weights sub-directory has no backslash to replace. */
  lemma {:induction false} SkinWeightsDirKept()
    ensures ReplaceBackslashes(SkinWeightsDir) == SkinWeightsDir
  {
    forall i | 0 <= i < |SkinWeightsDir| ensures SkinWeightsDir[i] != '\\' {
    }
    ReplaceBackslashesKeeps(SkinWeightsDir);
  }

  /** The directory `loadSkinWeights` lists, with backslashes made slashes:
      it holds no backslash. */
  function WeightsDir(mainProjectPath: string, characterName: string): (dir: string)
    ensures '\\' !in dir
  {
    ReplaceBackslashes(Join(Join(mainProjectPath, characterName), SkinWeightsDir))
  }

  /** The listed directory always ends with `weights/skinCluster`. */
  lemma {:induction false} WeightsDirEnds(mainProjectPath: string, characterName: string)
    ensures var dir := WeightsDir(mainProjectPath, characterName);
      |SkinWeightsDir| <= |dir| && dir[|dir| - |SkinWeightsDir|..] == SkinWeightsDir
  {
    ReplacedJoinEnds(Join(mainProjectPath, characterName), SkinWeightsDir);
    SkinWeightsDirKept();
  }

  /** The file `loadSkinWeights` hands to the weight loader for a listed
      name: it holds no backslash and ends with the listed name, backslashes
      made slashes. */
  function LoadedPath(wtDir: string, wtFile: string): (path: string)
    ensures '\\' !in path
    ensures |wtFile| <= |path| && path[|path| - |wtFile|..] == ReplaceBackslashes(wtFile)
  {
    ReplacedJoinEnds(wtDir, wtFile);
    ReplaceBackslashes(Join(wtDir, wtFile))
  }

  function LoadedPathIn(wtDir: string): string -> string
  {
    f => LoadedPath(wtDir, f)
  }

  /** The `extRes > 1` guard: a Python 2 comparison of the `(stem, ext)`
      tuple with the integer 1. */
  predicate ExtensionGuardSkips(extRes: (string, string))
  {
    !Greater(Tuple([extRes.0, extRes.1]), Int(1))
  }

  /** A listed file is loaded when it passes the four checks of the loop:
      the extension guard, the `.swt` extension, membership of the stem in a
      non-empty geometry list, and existence of the object the stem names.
      As the guard never skips, what decides is the `.swt` extension, the
      geometry list when it is not empty (an empty list restricts nothing),
      and existence of the object named by the stem. */
  predicate AcceptsWeightFile(wtFile: string, geoList: seq<string>, scene: Scene): (accepted: bool)
    ensures accepted <==> SplitExt(wtFile).1 == SwExt
                          && (geoList == [] || SplitExt(wtFile).0 in geoList)
                          && ObjExists(scene, SplitExt(wtFile).0)
  {
    var extRes := SplitExt(wtFile);
    ExtensionGuardNeverSkips(extRes);
    && !ExtensionGuardSkips(extRes)
    && extRes.1 == SwExt
    && !(geoList != [] && extRes.0 !in geoList)
    && ObjExists(scene, extRes.0)
  }

  function WeightFileFilter(geoList: seq<string>, scene: Scene): string -> bool
  {
    f => AcceptsWeightFile(f, geoList, scene)
  }

  /** The files `loadSkinWeights` loads, in the order it loads them. */
  function LoadPlan(wtDir: string, wtFiles: seq<string>, geoList: seq<string>, scene: Scene): (plan: seq<string>)
    ensures |plan| <= |wtFiles|
  {
    Map(LoadedPathIn(wtDir), Filter(WeightFileFilter(geoList, scene), wtFiles))
  }

  /** `saveSkinWeights(characterName, geoList)`: one weight file per object
      of the geometry list, in list order; each entry is the object selected
      and the file its weights are written to. */
  datatype SaveOp = SaveOp(selected: string, file: string)

  method SaveSkinWeights(mainProjectPath: string, characterName: string, geoList: seq<string>)
    returns (saves: seq<SaveOp>)
    ensures |saves| == |geoList|
    ensures forall i :: 0 <= i < |geoList| ==>
      saves[i] == SaveOp(geoList[i], WeightFile(mainProjectPath, characterName, geoList[i]))
  {
    saves := [];
    for i := 0 to |geoList|
      invariant |saves| == i
      invariant forall k :: 0 <= k < i ==>
        saves[k] == SaveOp(geoList[k], WeightFile(mainProjectPath, characterName, geoList[k]))
    {
      var obj := geoList[i];
      var wtFile := Join(Join(Join(mainProjectPath, characterName), SkinWeightsDir), obj + SwExt);
      saves := saves + [SaveOp(obj, wtFile)];
    }
  }

  /** `loadSkinWeights(characterName, geoList)` over the directory listing
      `wtFiles`: the files passing every check are loaded, each once, in
      listing order, from the weights directory. */
  method LoadSkinWeights(mainProjectPath: string, characterName: string, wtFiles: seq<string>,
                         geoList: seq<string>, scene: Scene)
    returns (loaded: seq<string>)
    ensures loaded == LoadPlan(WeightsDir(mainProjectPath, characterName), wtFiles, geoList, scene)
    ensures |loaded| <= |wtFiles|
  {
    var wtDir := ReplaceBackslashes(Join(Join(mainProjectPath, characterName), SkinWeightsDir));
    loaded := [];
    for i := 0 to |wtFiles|
      invariant loaded == LoadPlan(wtDir, wtFiles[..i], geoList, scene)
    {
      var wtFile := wtFiles[i];
      LoadPlanStep(wtDir, wtFiles, i, geoList, scene);
      var extRes := SplitExt(wtFile);

      // the Python 2 tuple-versus-integer guard
      if !Greater(Tuple([extRes.0, extRes.1]), Int(1)) {
        continue;
      }
      // only `.swt` files
      if !(extRes.1 == SwExt) {
        continue;
      }
      // a non-empty geometry list must name the stem
      if geoList != [] && extRes.0 !in geoList {
        continue;
      }
      // the stem must name an existing object
      if !ObjExists(scene, extRes.0) {
        continue;
      }
      var fullpathWtFile := ReplaceBackslashes(Join(wtDir, wtFile));
      loaded := loaded + [fullpathWtFile];
    }
    assert wtFiles[..|wtFiles|] == wtFiles;
  }

  /** One more listed file adds its path to the plan exactly when it is
      accepted. */
  lemma {:induction false} LoadPlanStep(wtDir: string, wtFiles: seq<string>, i: nat, geoList: seq<string>, scene: Scene)
    requires i < |wtFiles|
    ensures LoadPlan(wtDir, wtFiles[..i + 1], geoList, scene)
      == LoadPlan(wtDir, wtFiles[..i], geoList, scene)
         + (if AcceptsWeightFile(wtFiles[i], geoList, scene) then [LoadedPath(wtDir, wtFiles[i])] else [])
  {
    FilterMapStep(WeightFileFilter(geoList, scene), LoadedPathIn(wtDir), wtFiles, i);
  }

  /** A path is loaded exactly when some listed file passing the checks
      leads to it. */
  lemma {:induction false} LoadPlanMembers(wtDir: string, wtFiles: seq<string>, geoList: seq<string>, scene: Scene, p: string)
    ensures p in LoadPlan(wtDir, wtFiles, geoList, scene) <==>
      exists f :: f in wtFiles && AcceptsWeightFile(f, geoList, scene) && p == LoadedPath(wtDir, f)
  {
    var accepted := WeightFileFilter(geoList, scene);
    var kept := Filter(accepted, wtFiles);
    MapMembers(LoadedPathIn(wtDir), kept, p);
    forall f ensures f in kept <==> f in wtFiles && AcceptsWeightFile(f, geoList, scene) {
      FilterMembers(accepted, wtFiles, f);
    }
  }

  /** Under Python 2 a tuple is greater than any integer, so the extension
      guard never skips a file. */
  lemma {:induction false} ExtensionGuardNeverSkips(extRes: (string, string))
    ensures !ExtensionGuardSkips(extRes)
  {
  }

  /** The file name written for an object splits back into the object's
      name and `.swt`, provided the name has no `/` and is not made of dots
      only. */
  lemma {:induction false} SplitExtOfWeightFileName(obj: string)
    requires '/' !in obj
    requires exists i :: 0 <= i < |obj| && obj[i] != '.'
    ensures SplitExt(obj + SwExt) == (obj, SwExt)
  {
    var p := obj + SwExt;
    assert forall j :: |obj| < j < |p| ==> p[j] != '.';
    LastIndexOfUnique(p, '.', |obj|);
    LastIndexOfUnique(p, '/', -1);
    var i :| 0 <= i < |obj| && obj[i] != '.';
    assert p[i] != '.';
    assert p[..|obj|] == obj && p[|obj|..] == SwExt;
  }

  /** Round trip between saving and loading: the file saved for an object
      is loaded back exactly when the object exists and the geometry list
      is empty or names it. */
  lemma {:induction false} SavedWeightFileIsLoaded(obj: string, geoList: seq<string>, scene: Scene)
    requires '/' !in obj
    requires exists i :: 0 <= i < |obj| && obj[i] != '.'
    ensures AcceptsWeightFile(obj + SwExt, geoList, scene)
      <==> (geoList == [] || obj in geoList) && ObjExists(scene, obj)
  {
    SplitExtOfWeightFileName(obj);
  }

  /** Loading a listed file reads the path saving writes for it, up to the
      backslash-to-slash normalisation. */
  lemma {:induction false} LoadReadsSavedPath(mainProjectPath: string, characterName: string, obj: string)
    ensures LoadedPath(WeightsDir(mainProjectPath, characterName), obj + SwExt)
      == ReplaceBackslashes(WeightFile(mainProjectPath, characterName, obj))
  {
    var dir := Join(Join(mainProjectPath, characterName), SkinWeightsDir);
    var f := obj + SwExt;
    var nd := ReplaceBackslashes(dir);
    assert dir[|dir| - 1] == 'r' && nd[|nd| - 1] == 'r';
    if !(|f| > 0 && f[0] == '/') {
      assert Join(dir, f) == dir + "/" + f && Join(nd, f) == nd + "/" + f;
      ReplaceAroundSlash(dir, f);
      ReplaceAroundSlash(nd, f);
      ReplaceBackslashesIdempotent(dir);
    }
  }

  /** With an ordinary project path and character name the saved file is
      `<project>/<character>/weights/skinCluster/<obj>.swt`. */
  lemma {:induction false} WeightFileLayout(mainProjectPath: string, characterName: string, obj: string)
    requires mainProjectPath != "" && mainProjectPath[|mainProjectPath| - 1] != '/'
    requires characterName != "" && characterName[0] != '/' && characterName[|characterName| - 1] != '/'
    requires obj == "" || obj[0] != '/'
    ensures WeightFile(mainProjectPath, characterName, obj)
      == mainProjectPath + "/" + characterName + "/" + SkinWeightsDir + "/" + obj + SwExt
  {
    var a := Join(mainProjectPath, characterName);
    assert a == mainProjectPath + "/" + characterName;
    assert a[|a| - 1] == characterName[|characterName| - 1];
    var b := Join(a, SkinWeightsDir);
    assert b == a + "/" + SkinWeightsDir;
    assert (obj + SwExt)[0] != '/';
  }

  /** A listed name without `/` is loaded from `<weights dir>/<name>`. */
  lemma {:induction false} LoadedPathLayout(mainProjectPath: string, characterName: string, wtFile: string)
    requires '/' !in wtFile
    ensures LoadedPath(WeightsDir(mainProjectPath, characterName), wtFile)
      == WeightsDir(mainProjectPath, characterName) + "/" + ReplaceBackslashes(wtFile)
  {
    var dir := Join(Join(mainProjectPath, characterName), SkinWeightsDir);
    var nd := WeightsDir(mainProjectPath, characterName);
    assert nd[|nd| - 1] == 'r';
    assert wtFile != "" ==> wtFile[0] != '/';
    assert Join(nd, wtFile) == nd + "/" + wtFile;
    ReplaceAroundSlash(nd, wtFile);
    ReplaceBackslashesIdempotent(dir);
  }

  /** `build(baseRig, characterName)` as far as it computes: the twist joints
      of the four limb joints first, then the skin weights of `geoList` (the
      geometry the host finds under `<character>_model_grp`). A limb joint
      without a joint child raises and nothing is loaded. The loader's
      existence checks see `scene` as it was before the twist joints were
      made: the objects those create never appear in `geoList`, which names
      only the geometry under the model group, and a listed weight file that
      names one of them is left out of this model. */
  method Build(scene: Scene, mainProjectPath: string, characterName: string,
               wtFiles: seq<string>, geoList: seq<string>)
    returns (twists: seq<TwistSetup>, error: Option<TwistError>, loaded: seq<string>)
    ensures error.None? ==>
      && |twists| == |RefTwistJoints|
      && (forall i :: 0 <= i < |twists| ==>
            twists[i].source == RefTwistJoints[i] && twists[i].names == TwistNamesFor(RefTwistPrefixes[i]))
      && loaded == LoadPlan(WeightsDir(mainProjectPath, characterName), wtFiles, geoList, scene)
    ensures error.Some? ==>
      && |twists| < |RefTwistJoints| && !HasJointChild(scene, RefTwistJoints[|twists|])
      && loaded == []
  {
    twists, error := MakeTwistJoints(scene, RefTwistJoints);
    loaded := [];
    if error.Some? {
      return;
    }
    forall i | 0 <= i < |twists|
      ensures twists[i].names == TwistNamesFor(RefTwistPrefixes[i])
    {
      TwistPrefixOfRefJoint(i);
    }
    loaded := LoadSkinWeights(mainProjectPath, characterName, wtFiles, geoList, scene);
  }
}
