# Procedural rigging helpers, modelled in Dafny

This project models the parts of the procedural character-rigging scripts
(a Python 2.7 suite for an animation host) that compute something rather
than only issue scene commands:

- `removeSuffix` (module `Names`): cutting the last `_`-separated segment off an
  object name.
- The rig control factory `Control.__init__` (module `Controls`, class
  `Control`). It picks the circle normal from the shape selector and makes one
  curve shape, or two for a `sphere`. It names the control `<prefix>_ctl` and
  its offset group `<prefix>Offset_grp`. It chooses the colour from the side
  prefix. It snaps and reparents the offset group only when the reference
  exists. It expands the lock tokens `t`/`r`/`s` into per-axis channels and
  locks them on the control.
- `listHierarchy` (module `Joints`): the joint hierarchy listed from the top
  joint, with or without end joints.
- The deformation bookkeeping of the komodo rig (module `Deform`). This covers
  the twist-joint prefixes and names for the four limb joints and the
  per-object skin-weight file paths. It also covers the loop that decides
  which files of the weights directory are loaded, and the order of `build`.

The host application is replaced by plain data (module `Host`): the set of
existing object names and the host's answers to the "joint children" and
"joint descendants" queries. Like the host, `Host.ListRelatives` answers
`None` rather than an empty list. Host commands are replaced by the state or
the list of calls they would produce. Module `PyRuntime` states the Python 2.7
library behaviour the code relies on: `os.path.join` and `os.path.splitext`,
`str.replace("\\", "/")`, and Python 2's ordering of values of different
types. The rig runs under Maya on Windows, where `os.path` is `ntpath`; the
model uses the POSIX path module `posixpath` as a stand-in for it. The two
differ in the separator `join` inserts (`\` on Windows, `/` here). The loaded
paths pass through `.replace("\\", "/")` and are the same under both modules
for path parts with no drive letter, no leading `/` or `\` and no trailing
`\`; the saved path is not (see "## Left out").
Module `Seqs` holds the list operations: filtering comprehension, mapping
comprehension, `list.reverse`, `rfind`, subsequence.

Behaviour of the code that the model follows, where a reader might expect otherwise:

- The suffix separator is `_`, not a dot.
- The offset group is reparented whenever the `parent` name exists. No
  separate "was given" test exists beyond the empty default naming nothing.
- `listHierarchy` reverses whatever order the host lists descendants in. The
  top joint is first, but "top-down" order for the rest holds only if the
  host lists descendants bottom-up.
- The `extRes > 1` guard in `loadSkinWeights` compares a tuple with an
  integer. Under Python 2, which the repository targets, that comparison is
  always true, so the guard never skips a file
  (`Deform.ExtensionGuardNeverSkips`).

## Model

| member | source | states |
|---|---|---|
| `Names.Split` | code/python/src/rigLib/utils/name.py:17 | `name.split("_")` always yields at least one segment |
| `Names.SplitLastFits` | code/python/src/rigLib/utils/name.py:17-23 | the last segment plus one underscore per separator fits in the name, so the cut `name[:-(len(last)+1)]` stays inside it |
| `Names.SplitJoin` | code/python/src/rigLib/utils/name.py:17 | joining the segments with `_` gives the name back |
| `Names.SplitCountUnderscore` | code/python/src/rigLib/utils/name.py:17-19 | fewer than two segments exactly when the name has no `_` |
| `Names.RemoveSuffix` | code/python/src/rigLib/utils/name.py:7-25 | the result is always a prefix of the name |
| `Names.RemoveSuffixWithoutUnderscore` | code/python/src/rigLib/utils/name.py:17-20 | a name without `_`, the empty name included, is returned unchanged |
| `Names.RemoveSuffixCutsAtLastUnderscore` | code/python/src/rigLib/utils/name.py:22-23 | with `_` present, the result is the name up to, not including, its last `_` (equal to `name[..rfind("_")]`) |
| `Names.RemoveSuffixRoundTrip` | code/python/src/rigLib/utils/name.py:17-23 | result + `_` + last segment == name, so the length is `|name| - |last| - 1` |
| `Names.RemoveSuffixDropsOneSegment` | code/python/src/rigLib/utils/name.py:17-25 | the segments of the result are the name's segments minus the last one |
| `Names.RemoveSuffixFixedPoints` | code/python/src/rigLib/utils/name.py:17-25 | the result equals the name if and only if the name has no `_` |
| `Names.RemoveSuffixElbowExample` | code/python/src/rigLib/utils/name.py:22-23 | `l_elbow1_jnt` becomes `l_elbow1` |
| `Names.RemoveSuffixOneSegmentExample` | code/python/src/rigLib/utils/name.py:22-23 | `a_b_c` becomes `a_b`, not `a` |
| `Controls.CircleNormal` | code/python/src/rigLib/base/control.py:28-37 | `circleY` selects (0,1,0), `circleZ` selects (0,0,1); every other selector, unknown ones included, selects (1,0,0) |
| `Controls.ColorIndex` | code/python/src/rigLib/base/control.py:56-63 | a prefix starting `l_` gives 6, else one starting `r_` gives 13, anything else 22 |
| `Controls.ExpandLock` | code/python/src/rigLib/base/control.py:80-85 | a `t`, `r` or `s` token stands for three channels, any other token for one |
| `Controls.ExpandLockChannels` | code/python/src/rigLib/base/control.py:80-85 | a `t`, `r` or `s` token expands to itself followed by `x`, `y`, `z` in that order; any other token passes through unchanged; every channel starts with its token |
| `Controls.ExpandLocks` | code/python/src/rigLib/base/control.py:78-85 | the lock list has at least one and at most three channels per token |
| `Controls.ExpandLocksSnoc` | code/python/src/rigLib/base/control.py:79-85 | one more token appends exactly that token's channels to the list built so far |
| `Controls.SingleAttributeLocks` | code/python/src/rigLib/base/control.py:78-85 | the expansion loop builds exactly `ExpandLocks` of the tokens |
| `Controls.LockAttributes` | code/python/src/rigLib/base/control.py:87-88 | one lock per attribute, in list order, each on the given node |
| `Controls.ExpandLocksAppend` | code/python/src/rigLib/base/control.py:78-85 | expanding a concatenation of tokens concatenates the expansions |
| `Controls.ExpandLocksOrder` | code/python/src/rigLib/base/control.py:79-85 | the channels of token `i` come after those of earlier tokens and before those of later ones |
| `Controls.ExpandLocksLength` | code/python/src/rigLib/base/control.py:79-85 | the lock list has 3 entries per `t`/`r`/`s` token and 1 per other token |
| `Controls.DefaultLocks` | code/python/src/rigLib/base/control.py:10 | the default tokens `["s","v"]` lock exactly `sx, sy, sz, v` and no translate or rotate channel |
| `Controls.ControlNamesDiffer` | code/python/src/rigLib/base/control.py:46-49 | `<prefix>_ctl` and `<prefix>Offset_grp` are different names |
| `Controls.Control.constructor` | code/python/src/rigLib/base/control.py:10-92 | names `<prefix>_ctl`/`<prefix>Offset_grp`; control under offset; `sphere` gives two shapes with normals X then Z and deletes `<prefix>_ctl2`, other selectors one shape with `CircleNormal`; every shape gets the override enabled with `ColorIndex(prefix)`; translate snap, rotate snap and reparent happen exactly when their reference exists; the locks are the token expansion in order, all on the control and none on the offset |
| `Controls.DefaultArguments` | code/python/src/rigLib/base/control.py:10 | with every argument at its default the control is an X circle `new_ctl` under `newOffset_grp`, coloured 22 |
| `Controls.DefaultSphereControl` | code/python/src/procedural_rigging.py:60 | `Control(shape="sphere")` makes `new_ctl` with an X and a Z circle coloured 22, deletes `new_ctl2`, neither snaps nor reparents the offset (the empty default names no object), and locks `sx, sy, sz, v` on `new_ctl` |
| `Host.ObjExists` | code/python/src/rigLib/base/control.py:66-75 | `objExists("")` is false; any other name exists exactly when it is one of the scene's objects |
| `Host.ListRelatives` | code/python/src/rigLib/utils/joint.py:20-27 | the host answers `None` when the name has no entry or an empty one, otherwise its list, which is then never empty |
| `Seqs.LastIndexOf` | code/python/src/komodoRig/komodo_deform.py:212 | `rfind`: -1 or an index holding the element, with no occurrence after it |
| `Seqs.Reverse` | code/python/src/rigLib/utils/joint.py:22 | `list.reverse()` keeps the length and puts element `|s|-1-i` at `i` |
| `Seqs.Filter` | code/python/src/rigLib/utils/joint.py:27 | the comprehension is no longer than its input |
| `Seqs.FilterMembers` | code/python/src/rigLib/utils/joint.py:27 | an element is kept if and only if it is in the input and satisfies the condition |
| `Seqs.FilterIsSubsequence` | code/python/src/rigLib/utils/joint.py:27 | the comprehension keeps the order of the survivors |
| `Joints.ListHierarchy` | code/python/src/rigLib/utils/joint.py:9-29 | fails exactly when the host has no joint descendants; with end joints, the reverse of descendants + top, top first, length descendants + 1; without, the order-preserving subsequence of joints with a joint child, with the top joint present and first exactly when it has one |
| `PyRuntime.Join` | code/python/src/komodoRig/komodo_deform.py:189-190 | `os.path.join` always ends with its last component |
| `PyRuntime.ReplaceBackslashes` | code/python/src/komodoRig/komodo_deform.py:206-207 | same length, every backslash becomes `/` (so none is left), every other character kept |
| `PyRuntime.SplitExt` | code/python/src/komodoRig/komodo_deform.py:212 | stem + extension == name; a non-empty extension starts at the last dot, holds no other dot and no `/`, and some non-dot precedes it in the final component; an empty extension means every dot of the final component has only dots before it |
| `PyRuntime.TypeRank` | code/python/src/komodoRig/komodo_deform.py:215 | Python 2 ranks `None` first and numbers second among types |
| `PyRuntime.Less` | code/python/src/komodoRig/komodo_deform.py:215 | values of different types compare by type rank; no value is less than itself |
| `PyRuntime.LessAsymmetric` | code/python/src/komodoRig/komodo_deform.py:215 | no two values are each less than the other |
| `PyRuntime.Greater` | code/python/src/komodoRig/komodo_deform.py:215 | a tuple is greater than every integer |
| `Deform.TwistPrefix` | code/python/src/komodoRig/komodo_deform.py:142-143 | the prefix is `removeSuffix(joint)` without its last character (empty stays empty), a prefix of the joint name |
| `Deform.TwistNamesFor` | code/python/src/komodoRig/komodo_deform.py:147-173 | the four names made for a prefix all start with it |
| `Deform.MakeTwistJoints` | code/python/src/komodoRig/komodo_deform.py:138-176 | one setup per limb joint in order, grouped under `twistJoints_grp`, named `pTwistJoint_grp`, `pTwist1_jnt`, `pTwist2_jnt`, `pTwistJoint_ikh` and driven by the joint and its first joint child; stops with an error at the first joint without a joint child |
| `Deform.RefTwistJointPrefixes` | code/python/src/komodoRig/komodo_deform.py:54-56 | the four limb joints give `l_elbow, l_knee, r_elbow, r_knee`, in that order |
| `Deform.TwistNamesDistinct` | code/python/src/komodoRig/komodo_deform.py:147-152 | the four names made for one prefix are pairwise different |
| `Deform.SaveSkinWeights` | code/python/src/komodoRig/komodo_deform.py:187-194 | one save per object of the list, in order, each selecting the object and writing `WeightFile` for it |
| `Deform.WeightFile` | code/python/src/komodoRig/komodo_deform.py:189-190 | the saved file name always ends with `<obj>.swt` |
| `Deform.WeightFileLayout` | code/python/src/komodoRig/komodo_deform.py:189-190 | under `posixpath`, standing in for the target's `ntpath`, the saved file is `<project>/<character>/weights/skinCluster/<obj>.swt` for ordinary path parts |
| `Deform.WeightsDir` | code/python/src/komodoRig/komodo_deform.py:206-207 | the listed directory holds no backslash |
| `Deform.WeightsDirEnds` | code/python/src/komodoRig/komodo_deform.py:206-207 | the listed directory ends with `weights/skinCluster` |
| `Deform.LoadedPath` | code/python/src/komodoRig/komodo_deform.py:230 | the loaded path holds no backslash and ends with the listed name, backslashes made slashes |
| `Deform.LoadPlan` | code/python/src/komodoRig/komodo_deform.py:211-232 | the files loaded from a listing are never more than the listing |
| `Deform.LoadSkinWeights` | code/python/src/komodoRig/komodo_deform.py:197-232 | the loaded files are the listing entries passing every check, each once, in listing order, as paths in the weights directory; never more than the listing |
| `Deform.LoadPlanStep` | code/python/src/komodoRig/komodo_deform.py:211-232 | each listing entry adds its weights-directory path to the plan exactly when it passes every check, and adds nothing otherwise |
| `Deform.LoadPlanMembers` | code/python/src/komodoRig/komodo_deform.py:211-232 | a path is loaded if and only if some listed file passing the checks leads to it |
| `Deform.ExtensionGuardNeverSkips` | code/python/src/komodoRig/komodo_deform.py:215-216 | under Python 2 the `extRes > 1` guard never skips |
| `Deform.AcceptsWeightFile` | code/python/src/komodoRig/komodo_deform.py:212-228 | a file is accepted if and only if its extension is `.swt`, the geometry list is empty or holds its stem, and its stem names an existing object |
| `Deform.SplitExtOfWeightFileName` | code/python/src/komodoRig/komodo_deform.py:212 | `<obj>.swt` splits back into `obj` and `.swt` when `obj` has no `/` and is not all dots |
| `Deform.SavedWeightFileIsLoaded` | code/python/src/komodoRig/komodo_deform.py:219-228 | the file saved for an object is loaded exactly when the object exists and the geometry list is empty or names it |
| `Deform.LoadReadsSavedPath` | code/python/src/komodoRig/komodo_deform.py:206-230 | the path loaded for `<obj>.swt` is the saved path with backslashes made slashes |
| `Deform.LoadedPathLayout` | code/python/src/komodoRig/komodo_deform.py:230 | a listed name without `/` is loaded from `<weights dir>/<name>` |
| `Deform.Build` | code/python/src/komodoRig/komodo_deform.py:42-60 | twist joints for the four limb joints with the expected prefixes, then the load plan; a limb joint without a joint child aborts before anything is loaded |

## Left out

- Every host command: curve, group and joint creation, parenting, point,
  orient and parent constraints, IK handles, `setAttr`, `hide`, `color`,
  `duplicate`. The model records what these commands would be asked to do.
  It does not model the host's own behaviour, such as renaming on a name
  clash, naming shape nodes, or failing to lock an attribute that does not
  exist.
- Control size (`scale`, the circle radius) and the doubled twist-joint
  radius are floating-point values with no logic around them.
- The delta mush deformer (50 smoothing iterations on `body_midres_geo`) and
  the wrap of `body_geo` onto it in `build` are pass-through host deformer
  calls.
- `_getModelGeoObjects` is a host query. `Deform.Build` takes its answer as
  `geoList`. The error it raises for a model group without meshes is not
  modelled.
- `os.listdir` is file-system I/O, so the directory listing is an input. A
  missing weights directory, which raises in the source, is not modelled.
- `bSkinSaver.bSaveSkinValues` and `bLoadSkinValues` belong to an external
  library with an opaque file format. The model returns the list of files
  they would be given.
- Path handling follows Python's POSIX path module, `posixpath`, standing in
  for the `ntpath` module the Windows host uses. `ntpath` is not modelled:
  drive letters (a part with its own drive discards the earlier parts, and a
  part with a leading `/` keeps the earlier drive), UNC paths, `\` inserted
  by `join`, `\` as a separator `join` recognises at the start or end of a
  part (a trailing `\` gets no second separator, a leading one makes the
  part absolute), and `\` as a second separator in `splitext`.
- Deform.WeightFileLayout: states the `/` layout `posixpath.join` gives. On
  Windows `ntpath.join` inserts `\` instead, so the file is saved as
  `<project>\<character>\weights/skinCluster\<obj>.swt`. The load side is
  unaffected, because `.replace("\\", "/")` turns those separators into `/`
  (`Deform.LoadReadsSavedPath`).
- Deform.Build: the loader's existence checks see the scene from before the
  twist joints were made, not the twist group and the four objects per limb
  created by then. They differ only for a listed weight file named after a
  twist object that is also in `geoList`; `geoList` holds only the geometry
  under the model group.
- PyRuntime.Join: the two-argument step of `posixpath.join`, not of `ntpath.join`.
- Under Python 3 the `extRes > 1` comparison would raise `TypeError`. The
  model follows the Python 2.7 runtime the repository targets.
- `project.mainProjectPath` comes from the interpreter's file location, so
  the model takes the project path as a parameter.
- The base and module scaffolds, the limb assemblers (spine, neck,
  head parts, leg, chain), the offset-group helper and the entry points
  (apart from the `Control(shape="sphere")` call of the course script) are
  not part of this model. They are sequences of host commands around names
  that are already covered here.
