/** The rig control of `rigLib/base/control.py`: a curve object
    `<prefix>_ctl` parented under an offset group `<prefix>Offset_grp`,
    coloured by the side its prefix names, optionally snapped to reference
    objects and reparented, with the requested channels locked on the
    control. The host calls are replaced by the state they leave behind. */
module Controls {
  import opened Wrappers
  import opened Host

  /** A circle normal, as the integer triple the host is given. */
  datatype Vec3 = Vec3(x: int, y: int, z: int)

  const XNormal := Vec3(1, 0, 0)
  const YNormal := Vec3(0, 1, 0)
  const ZNormal := Vec3(0, 0, 1)

  /** Defaults of the constructor's keyword arguments. */
  const DefaultPrefix := "new"
  const DefaultShape := "circle"
  const DefaultLockChannels := ["s", "v"]

  /** The three axes a `t`, `r` or `s` lock token expands to, in order. */
  const Axes := ["x", "y", "z"]

  /** A curve shape of the control: the normal of its circle and its
      drawing override (enabled flag and colour index). */
  datatype CurveShape = CurveShape(normal: Vec3, overrideEnabled: bool, overrideColor: int)

  /** One `setAttr(node.attr, lock=True, keyable=False)` call. */
  datatype Lock = Lock(node: string, attr: string)

  function ControlName(prefix: string): string { prefix + "_ctl" }

  function OffsetName(prefix: string): string { prefix + "Offset_grp" }

  /** The transient second curve of a sphere control. */
  function SphereHelperName(prefix: string): string { prefix + "_ctl2" }

  /** The normal of a single-circle control: `circleY` and `circleZ` pick
      their axis, every other selector (`circle`, `circleX`, and any
      unrecognised string) keeps the X normal. */
  function CircleNormal(shape: string): (n: Vec3)
    ensures n == YNormal <==> shape == "circleY"
    ensures n == ZNormal <==> shape == "circleZ"
    ensures n == XNormal <==> shape != "circleY" && shape != "circleZ"
  {
    if shape in ["circle", "circleX"] then XNormal
    else if shape == "circleY" then YNormal
    else if shape == "circleZ" then ZNormal
    else XNormal
  }

  /** The override colour chosen by the prefix: 6 for a left-side `l_`
      prefix, 13 for a right-side `r_` prefix, 22 for anything else. */
  function ColorIndex(prefix: string): (c: int)
    ensures c == 6 <==> "l_" <= prefix
    ensures c == 13 <==> !("l_" <= prefix) && "r_" <= prefix
    ensures c == 22 <==> !("l_" <= prefix) && !("r_" <= prefix)
  {
    if "l_" <= prefix then 6
    else if "r_" <= prefix then 13
    else 22
  }

  predicate IsAxisGroup(token: string)
  {
    token in ["t", "r", "s"]
  }

  /** The per-axis channels of a `t`, `r` or `s` token. */
  function AxisChannels(token: string): seq<string>
  {
    [token + Axes[0], token + Axes[1], token + Axes[2]]
  }

  /** Taking one more axis extends the channels built so far by that axis. */
  lemma {:induction false} AxisChannelsStep(token: string, j: nat)
    requires j < |Axes|
    ensures AxisChannels(token)[..j + 1] == AxisChannels(token)[..j] + [token + Axes[j]]
  {
  }

  /** A `t`, `r` or `s` token stands for its three axis channels. */
  lemma {:induction false} AxisGroupChannels(token: string)
    requires token in ["t", "r", "s"]
    ensures ExpandLock(token) == AxisChannels(token)[..|Axes|]
  {
    assert IsAxisGroup(token);
    assert AxisChannels(token)[..|Axes|] == AxisChannels(token);
  }

  /** The channels one lock token stands for: three for `t`, `r` or `s`,
      the token itself otherwise. */
  function ExpandLock(token: string): (channels: seq<string>)
    ensures |channels| == if IsAxisGroup(token) then 3 else 1
  {
    if IsAxisGroup(token) then AxisChannels(token) else [token]
  }

  /** A `t`, `r` or `s` token stands for itself followed by `x`, `y` and
      `z`, in that order; any other token passes through unchanged. Either
      way every channel starts with its token. */
  lemma {:induction false} ExpandLockChannels(token: string)
    ensures IsAxisGroup(token) ==> ExpandLock(token) == [token + "x", token + "y", token + "z"]
    ensures !IsAxisGroup(token) ==> ExpandLock(token) == [token]
    ensures forall c :: c in ExpandLock(token) ==> token <= c
  {
    if IsAxisGroup(token) {
      var channels := AxisChannels(token);
      assert Axes[0] == "x" && Axes[1] == "y" && Axes[2] == "z";
      forall j | 0 <= j < 3 ensures token <= channels[j] {
        assert channels[j][..|token|] == token;
      }
    }
  }

  /** The single-attribute lock list built from the lock tokens: at least
      one and at most three channels per token. */
  function ExpandLocks(tokens: seq<string>): (channels: seq<string>)
    ensures |tokens| <= |channels| <= 3 * |tokens|
  {
    if tokens == [] then [] else ExpandLock(tokens[0]) + ExpandLocks(tokens[1..])
  }

  /** The number of `t`, `r` and `s` tokens. */
  function AxisGroupCount(tokens: seq<string>): nat
  {
    if tokens == [] then 0
    else (if IsAxisGroup(tokens[0]) then 1 else 0) + AxisGroupCount(tokens[1..])
  }

  /** Expansion works token by token: the expansion of a concatenation is
      the concatenation of the expansions. */
  lemma {:induction false} ExpandLocksAppend(a: seq<string>, b: seq<string>)
    ensures ExpandLocks(a + b) == ExpandLocks(a) + ExpandLocks(b)
    decreases |a|
  {
    if a == [] {
      assert a + b == b;
    } else {
      assert (a + b)[0] == a[0] && (a + b)[1..] == a[1..] + b;
      ExpandLocksAppend(a[1..], b);
    }
  }

  /** Appending one token appends its channels. */
  lemma {:induction false} ExpandLocksSnoc(tokens: seq<string>, token: string)
    ensures ExpandLocks(tokens + [token]) == ExpandLocks(tokens) + ExpandLock(token)
    decreases |tokens|
  {
    if tokens == [] {
      assert tokens + [token] == [token] && [token][1..] == [];
    } else {
      assert (tokens + [token])[0] == tokens[0] && (tokens + [token])[1..] == tokens[1..] + [token];
      ExpandLocksSnoc(tokens[1..], token);
    }
  }

  /** Token order is kept: the channels of token `i` sit between those of
      the tokens before it and those of the tokens after it. */
  lemma {:induction false} ExpandLocksOrder(tokens: seq<string>, i: nat)
    requires i < |tokens|
    ensures ExpandLocks(tokens)
      == ExpandLocks(tokens[..i]) + ExpandLock(tokens[i]) + ExpandLocks(tokens[i + 1..])
  {
    var before, from := tokens[..i], tokens[i..];
    assert tokens == before + from;
    ExpandLocksAppend(before, from);
    assert from[0] == tokens[i] && from[1..] == tokens[i + 1..];
    var x, y, z := ExpandLocks(before), ExpandLock(tokens[i]), ExpandLocks(tokens[i + 1..]);
    assert ExpandLocks(from) == y + z;
    assert x + (y + z) == x + y + z;
  }

  /** Each `t`/`r`/`s` token gives three channels, every other token one. */
  lemma {:induction false} ExpandLocksLength(tokens: seq<string>)
    ensures |ExpandLocks(tokens)| == 3 * AxisGroupCount(tokens) + (|tokens| - AxisGroupCount(tokens))
    ensures AxisGroupCount(tokens) <= |tokens|
    decreases |tokens|
  {
    if tokens != [] {
      ExpandLocksLength(tokens[1..]);
    }
  }

  /** With the default tokens exactly `sx, sy, sz, v` are locked; no
      translate or rotate channel is. */
  lemma {:induction false} DefaultLocks()
    ensures ExpandLocks(DefaultLockChannels) == ["sx", "sy", "sz", "v"]
    ensures forall c :: c in ["tx", "ty", "tz", "rx", "ry", "rz"] ==> c !in ExpandLocks(DefaultLockChannels)
  {
    assert DefaultLockChannels[1..] == ["v"] && ["v"][1..] == [];
    assert IsAxisGroup("s");
    assert "s" + "x" == "sx" && "s" + "y" == "sy" && "s" + "z" == "sz";
    assert AxisChannels("s") == ["sx", "sy", "sz"];
    assert ExpandLock("v") == ["v"];
  }

  /** The control and its offset group never share a name. */
  lemma {:induction false} ControlNamesDiffer(prefix: string)
    ensures ControlName(prefix) != OffsetName(prefix)
  {
    assert |ControlName(prefix)| != |OffsetName(prefix)|;
  }

  /** The lock-list expansion loop of the control constructor: every `t`,
      `r` or `s` token becomes its three axis channels, any other token is
      kept as it is. */
  method SingleAttributeLocks(lockChannels: seq<string>) returns (singleAttributeLockList: seq<string>)
    ensures singleAttributeLockList == ExpandLocks(lockChannels)
  {
    singleAttributeLockList := [];
    for i := 0 to |lockChannels|
      invariant singleAttributeLockList == ExpandLocks(lockChannels[..i])
    {
      var lockChannel := lockChannels[i];
      ExpandLocksSnoc(lockChannels[..i], lockChannel);
      assert lockChannels[..i + 1] == lockChannels[..i] + [lockChannel];
      if lockChannel in ["t", "r", "s"] {
        ghost var before := singleAttributeLockList;
        for j := 0 to |Axes|
          invariant singleAttributeLockList == before + AxisChannels(lockChannel)[..j]
        {
          var at := lockChannel + Axes[j];
          AxisChannelsStep(lockChannel, j);
          singleAttributeLockList := singleAttributeLockList + [at];
        }
        AxisGroupChannels(lockChannel);
      } else {
        singleAttributeLockList := singleAttributeLockList + [lockChannel];
      }
    }
    assert lockChannels[..|lockChannels|] == lockChannels;
  }

  /** The locking loop of the control constructor: one lock, in order, for
      every attribute of the list, all on the given node. */
  method LockAttributes(node: string, attrs: seq<string>) returns (applied: seq<Lock>)
    ensures |applied| == |attrs|
    ensures forall k :: 0 <= k < |attrs| ==> applied[k] == Lock(node, attrs[k])
  {
    applied := [];
    for i := 0 to |attrs|
      invariant |applied| == i
      invariant forall k :: 0 <= k < i ==> applied[k] == Lock(node, attrs[k])
    {
      applied := applied + [Lock(node, attrs[i])];
    }
  }

  /** A control built by `Control.__init__`. The fields `C` and `Off` are
      the source's public members; the others record what the constructor
      did to the host: the curve shapes under `C`, the helper it deleted,
      the parent of `C`, the one-shot snaps of the offset group, the parent
      of the offset group, and the channels it locked. */
  class Control {
    var C: string
    var Off: string
    var shapes: seq<CurveShape>
    var deletedHelpers: seq<string>
    var controlParent: string
    var translateSnap: Option<string>
    var rotateSnap: Option<string>
    var offsetParent: Option<string>
    var locks: seq<Lock>

    /** Existence checks see the scene after the control and its offset
        group were created. */
    constructor (prefix: string, translateTo: string, rotateTo: string, parent: string,
                 shape: string, lockChannels: seq<string>, scene: Scene)
      ensures C == ControlName(prefix) && Off == OffsetName(prefix) && C != Off
      ensures controlParent == Off
      ensures shape == "sphere" ==> |shapes| == 2 && shapes[0].normal == XNormal && shapes[1].normal == ZNormal
      ensures shape != "sphere" ==> |shapes| == 1 && shapes[0].normal == CircleNormal(shape)
      ensures forall s :: s in shapes ==> s.overrideEnabled && s.overrideColor == ColorIndex(prefix)
      ensures deletedHelpers == if shape == "sphere" then [SphereHelperName(prefix)] else []
      ensures var after := scene.(objects := scene.objects + {C, Off});
        && translateSnap == (if ObjExists(after, translateTo) then Some(translateTo) else None)
        && rotateSnap == (if ObjExists(after, rotateTo) then Some(rotateTo) else None)
        && offsetParent == (if ObjExists(after, parent) then Some(parent) else None)
      ensures |locks| == |ExpandLocks(lockChannels)|
      ensures forall i :: 0 <= i < |locks| ==> locks[i] == Lock(C, ExpandLocks(lockChannels)[i])
      ensures forall l :: l in locks ==> l.node == C && l.node != Off
    {
      // choose the shape: a sphere builds its two circles at once
      var ctrlObject: Option<seq<Vec3>> := None;
      var circleNormal := XNormal;
      var helpers: seq<string> := [];
      if shape in ["circle", "circleX"] {
        circleNormal := XNormal;
      } else if shape == "circleY" {
        circleNormal := YNormal;
      } else if shape == "circleZ" {
        circleNormal := ZNormal;
      } else if shape == "sphere" {
        // the second circle's shape moves under the first; its transform is deleted
        ctrlObject := Some([XNormal, ZNormal]);
        helpers := [SphereHelperName(prefix)];
      }
      if ctrlObject.None? {
        ctrlObject := Some([circleNormal]);
      }
      var ctrl := ControlName(prefix);
      var ctrlOffset := OffsetName(prefix);
      ControlNamesDiffer(prefix);
      var after := scene.(objects := scene.objects + {ctrl, ctrlOffset});

      // colour every shape of the control
      var normals := ctrlObject.value;
      var color := ColorIndex(prefix);
      var colored := seq(|normals|, i requires 0 <= i < |normals| => CurveShape(normals[i], true, color));

      // snap and reparent the offset group only when the reference exists
      var tSnap: Option<string> := None;
      var rSnap: Option<string> := None;
      var newParent: Option<string> := None;
      if ObjExists(after, translateTo) {
        tSnap := Some(translateTo);
      }
      if ObjExists(after, rotateTo) {
        rSnap := Some(rotateTo);
      }
      if ObjExists(after, parent) {
        newParent := Some(parent);
      }

      // expand the lock tokens into single attributes
      var singleAttributeLockList := SingleAttributeLocks(lockChannels);

      // lock and hide each attribute on the control object
      var applied := LockAttributes(ctrl, singleAttributeLockList);

      C := ctrl;
      Off := ctrlOffset;
      shapes := colored;
      deletedHelpers := helpers;
      controlParent := ctrlOffset;
      translateSnap := tSnap;
      rotateSnap := rSnap;
      offsetParent := newParent;
      locks := applied;
    }
  }

  /** With every argument left at its default the control is an X circle
      named `new_ctl`, coloured 22, under `newOffset_grp`. */
  lemma {:induction false} DefaultArguments()
    ensures ControlName(DefaultPrefix) == "new_ctl" && OffsetName(DefaultPrefix) == "newOffset_grp"
    ensures CircleNormal(DefaultShape) == XNormal
    ensures ColorIndex(DefaultPrefix) == 22
  {
    assert DefaultPrefix[0] == 'n';
  }

  /** The call `Control(shape="sphere")` with every other argument at its
      default: two circles coloured 22, the helper `new_ctl2` deleted, no
      snap or reparent (the empty reference names no object), and the
      scale channels and visibility locked on `new_ctl`. */
  method DefaultSphereControl(scene: Scene) returns (c: Control)
    ensures c.C == "new_ctl" && c.Off == "newOffset_grp"
    ensures c.shapes == [CurveShape(XNormal, true, 22), CurveShape(ZNormal, true, 22)]
    ensures c.deletedHelpers == ["new_ctl2"]
    ensures c.translateSnap.None? && c.rotateSnap.None? && c.offsetParent.None?
    ensures c.locks == [Lock("new_ctl", "sx"), Lock("new_ctl", "sy"), Lock("new_ctl", "sz"), Lock("new_ctl", "v")]
  {
    c := new Control(DefaultPrefix, "", "", "", "sphere", DefaultLockChannels, scene);
    DefaultArguments();
    DefaultLocks();
    assert SphereHelperName(DefaultPrefix) == "new_ctl2";
  }
}
