/** Name utilities of the rig library: removing the trailing `_suffix`
    segment of an object name (`rigLib/utils/name.py`). */
module Names {
  import Seqs

  /** Python's `s.split("_")`: the segments between underscores, always at
      least one. */
  function Split(s: string): (parts: seq<string>)
    ensures |parts| >= 1
    decreases |s|
  {
    if s == [] then [""]
    else if s[0] == '_' then [""] + Split(s[1..])
    else
      var rest := Split(s[1..]);
      [[s[0]] + rest[0]] + rest[1..]
  }

  /** The last segment together with one underscore per separator never
      exceeds the name's length. */
  lemma {:induction false} SplitLastFits(s: string)
    ensures var parts := Split(s); |parts[|parts| - 1]| + |parts| - 1 <= |s|
    decreases |s|
  {
    if s != [] {
      SplitLastFits(s[1..]);
    }
  }

  /** Python's `"_".join(parts)`. */
  function JoinUnderscore(parts: seq<string>): string
    requires |parts| >= 1
  {
    if |parts| == 1 then parts[0] else parts[0] + "_" + JoinUnderscore(parts[1..])
  }

  /** The segment after the last underscore (the whole name when there is none). */
  function LastSegment(name: string): string
  {
    var edits := Split(name);
    edits[|edits| - 1]
  }

  /** `removeSuffix(name)`: a name with fewer than two segments is returned
      as it is; otherwise `"_" + last segment` is cut off the end. The
      result is always a prefix of the name. */
  function RemoveSuffix(name: string): (r: string)
    ensures r <= name
  {
    var edits := Split(name);
    SplitLastFits(name);
    if |edits| < 2 then name
    else
      var suffix := "_" + edits[|edits| - 1];
      name[..|name| - |suffix|]
  }

  /** Extending the first segment extends the joined string at its front. */
  lemma {:induction false} JoinExtendFirst(x: string, parts: seq<string>)
    requires |parts| >= 1
    ensures JoinUnderscore([x + parts[0]] + parts[1..]) == x + JoinUnderscore(parts)
  {
    var extended := [x + parts[0]] + parts[1..];
    assert extended[0] == x + parts[0] && extended[1..] == parts[1..];
    if |parts| > 1 {
      var first, others := parts[0], JoinUnderscore(parts[1..]);
      assert JoinUnderscore(parts) == first + "_" + others;
      assert JoinUnderscore(extended) == (x + first) + "_" + others;
    }
  }

  /** Splitting and joining again gives the name back. */
  lemma {:induction false} SplitJoin(s: string)
    ensures JoinUnderscore(Split(s)) == s
    decreases |s|
  {
    if s != [] {
      var tail := s[1..];
      var rest := Split(tail);
      SplitJoin(tail);
      assert s == [s[0]] + tail;
      if s[0] == '_' {
        var parts := [""] + rest;
        assert parts[0] == "" && parts[1..] == rest;
        assert JoinUnderscore(parts) == "_" + JoinUnderscore(rest);
      } else {
        JoinExtendFirst([s[0]], rest);
      }
    }
  }

  /** A name without underscores is a single segment. */
  lemma {:induction false} SplitNoUnderscore(s: string)
    requires '_' !in s
    ensures Split(s) == [s]
    decreases |s|
  {
    if s != [] {
      SplitNoUnderscore(s[1..]);
      assert [s[0]] + s[1..] == s;
    }
  }

  /** Splitting distributes over an underscore. */
  lemma {:induction false} SplitConcat(a: string, b: string)
    ensures Split(a + "_" + b) == Split(a) + Split(b)
    decreases |a|
  {
    var s := a + "_" + b;
    if a == [] {
      assert s[0] == '_' && s[1..] == b;
    } else {
      assert s[0] == a[0] && s[1..] == a[1..] + "_" + b;
      SplitConcat(a[1..], b);
    }
  }

  /** A name containing `_` splits into the segments before its last
      underscore plus the text after it. */
  lemma {:induction false} SplitAtLastUnderscore(name: string)
    requires '_' in name
    ensures var k := Seqs.LastIndexOf(name, '_');
      0 <= k && Split(name) == Split(name[..k]) + [name[k + 1..]]
  {
    var k := Seqs.LastIndexOf(name, '_');
    assert name == name[..k] + "_" + name[k + 1..];
    SplitConcat(name[..k], name[k + 1..]);
    SplitNoUnderscore(name[k + 1..]);
  }

  /** A name splits into fewer than two segments exactly when it has no `_`. */
  lemma {:induction false} SplitCountUnderscore(name: string)
    ensures |Split(name)| < 2 <==> '_' !in name
  {
    if '_' in name {
      SplitAtLastUnderscore(name);
    } else {
      SplitNoUnderscore(name);
    }
  }

  /** Names without `_` (the empty name included) come back unchanged. */
  lemma {:induction false} RemoveSuffixWithoutUnderscore(name: string)
    requires '_' !in name
    ensures RemoveSuffix(name) == name && LastSegment(name) == name
  {
    SplitNoUnderscore(name);
  }

  /** A name with `_` loses its last underscore and everything after it: the
      result ends right before an underscore that has no underscore after it. */
  lemma {:induction false} RemoveSuffixCutsAtLastUnderscore(name: string)
    requires '_' in name
    ensures var r := RemoveSuffix(name);
      |r| < |name| && name[|r|] == '_' && r == name[..|r|]
      && (forall j :: |r| < j < |name| ==> name[j] != '_')
    ensures RemoveSuffix(name) == name[..Seqs.LastIndexOf(name, '_')]
  {
    SplitAtLastUnderscore(name);
  }

  /** Round trip: the stripped name, an underscore and the last segment
      rebuild the name, so the result is `|name| - |last segment| - 1` long. */
  lemma {:induction false} RemoveSuffixRoundTrip(name: string)
    requires '_' in name
    ensures RemoveSuffix(name) + "_" + LastSegment(name) == name
    ensures |RemoveSuffix(name)| == |name| - |LastSegment(name)| - 1
  {
    SplitAtLastUnderscore(name);
    var k := Seqs.LastIndexOf(name, '_');
    assert name == name[..k] + "_" + name[k + 1..];
  }

  /** Exactly one segment is stripped: the segments of the result are those
      of the name without the last one. */
  lemma {:induction false} RemoveSuffixDropsOneSegment(name: string)
    requires '_' in name
    ensures Split(RemoveSuffix(name)) == Split(name)[..|Split(name)| - 1]
  {
    SplitAtLastUnderscore(name);
    var k := Seqs.LastIndexOf(name, '_');
    assert Split(name)[..|Split(name)| - 1] == Split(name[..k]);
  }

  /** The names `removeSuffix` leaves unchanged are exactly those without `_`. */
  lemma {:induction false} RemoveSuffixFixedPoints(name: string)
    ensures RemoveSuffix(name) == name <==> '_' !in name
  {
    if '_' in name {
      RemoveSuffixCutsAtLastUnderscore(name);
    } else {
      RemoveSuffixWithoutUnderscore(name);
    }
  }

  /** The documented example: `l_elbow1_jnt` loses `_jnt` only. */
  lemma {:induction false} RemoveSuffixElbowExample()
    ensures RemoveSuffix("l_elbow1_jnt") == "l_elbow1"
  {
    var n := "l_elbow1_jnt";
    assert n[8] == '_' && forall j :: 8 < j < |n| ==> n[j] != '_';
    Seqs.LastIndexOfUnique(n, '_', 8);
    RemoveSuffixCutsAtLastUnderscore(n);
    assert n[..8] == "l_elbow1";
  }

  /** One segment is stripped, never two: `a_b_c` gives `a_b`. */
  lemma {:induction false} RemoveSuffixOneSegmentExample()
    ensures RemoveSuffix("a_b_c") == "a_b"
  {
    var n := "a_b_c";
    assert n[3] == '_' && n[4] != '_';
    Seqs.LastIndexOfUnique(n, '_', 3);
    RemoveSuffixCutsAtLastUnderscore(n);
    assert n[..3] == "a_b";
  }
}
