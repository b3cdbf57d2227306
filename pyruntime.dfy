/** The parts of the Python 2.7 runtime the deformation code leans on:
    `os.path.join` and `os.path.splitext`, `str.replace("\\", "/")`, and the
    ordering Python 2 gives to values of different types. The path functions
    are those of the POSIX path module (`posixpath`); on Windows, where the
    rig runs, `os.path` is `ntpath`, whose `join` inserts `\\` instead of `/`. */
module PyRuntime {
  import Seqs

  /** `os.path.join(path, b)`: an absolute `b` replaces the path; otherwise a
      `/` is inserted unless the path is empty or already ends with one.
      The result always ends with `b`. */
  function Join(path: string, b: string): (r: string)
    ensures |b| <= |r| && r[|r| - |b|..] == b
  {
    if |b| > 0 && b[0] == '/' then b
    else if path == "" || path[|path| - 1] == '/' then path + b
    else path + "/" + b
  }

  /** `s.replace("\\", "/")`: every backslash becomes a slash, every other
      character stays. */
  function ReplaceBackslashes(s: string): (r: string)
    ensures |r| == |s| && '\\' !in r
    ensures forall i :: 0 <= i < |s| && s[i] == '\\' ==> r[i] == '/'
    ensures forall i :: 0 <= i < |s| && s[i] != '\\' ==> r[i] == s[i]
  {
    seq(|s|, i requires 0 <= i < |s| => if s[i] == '\\' then '/' else s[i])
  }

  lemma {:induction false} ReplaceBackslashesAppend(a: string, b: string)
    ensures ReplaceBackslashes(a + b) == ReplaceBackslashes(a) + ReplaceBackslashes(b)
  {
    var l, r := ReplaceBackslashes(a + b), ReplaceBackslashes(a) + ReplaceBackslashes(b);
    assert |l| == |r|;
    forall i | 0 <= i < |l| ensures l[i] == r[i] {
      if i >= |a| {
        assert (a + b)[i] == b[i - |a|];
      }
    }
  }

  lemma {:induction false} ReplaceBackslashesKeeps(s: string)
    requires '\\' !in s
    ensures ReplaceBackslashes(s) == s
  {
  }

  lemma {:induction false} ReplaceBackslashesSuffix(s: string, n: nat)
    requires n <= |s|
    ensures ReplaceBackslashes(s)[n..] == ReplaceBackslashes(s[n..])
  {
    var l, r := ReplaceBackslashes(s)[n..], ReplaceBackslashes(s[n..]);
    assert |l| == |r|;
    forall i | 0 <= i < |l| ensures l[i] == r[i] {
      assert s[n..][i] == s[n + i];
    }
  }

  /** A joined path, backslashes made slashes, ends with its last
      component, backslashes made slashes. */
  lemma {:induction false} ReplacedJoinEnds(path: string, b: string)
    ensures var r := ReplaceBackslashes(Join(path, b));
      |b| <= |r| && r[|r| - |b|..] == ReplaceBackslashes(b)
  {
    var joined := Join(path, b);
    ReplaceBackslashesSuffix(joined, |joined| - |b|);
  }

  lemma {:induction false} ReplaceAroundSlash(a: string, b: string)
    ensures ReplaceBackslashes(a + "/" + b) == ReplaceBackslashes(a) + "/" + ReplaceBackslashes(b)
  {
    ReplaceBackslashesAppend(a + "/", b);
    ReplaceBackslashesAppend(a, "/");
    assert ReplaceBackslashes("/") == "/";
  }

  lemma {:induction false} ReplaceBackslashesIdempotent(s: string)
    ensures ReplaceBackslashes(ReplaceBackslashes(s)) == ReplaceBackslashes(s)
  {
  }

  /** `os.path.splitext(p)`: the last `.` after the last `/` starts the
      extension, unless only dots precede it in the final component (a
      leading-dot name such as `.swt` has no extension). Stem and extension
      concatenate to `p`; a non-empty extension is one dot followed by no
      other dot and no `/`, cut at the last dot of `p` with some character
      other than a dot before it in the final component; an empty extension
      means every dot of the final component has only dots before it. */
  function SplitExt(p: string): (r: (string, string))
    ensures r.0 + r.1 == p
    ensures r.1 == "" || (r.1[0] == '.' && '.' !in r.1[1..])
    ensures '/' !in r.1
    ensures r.1 != "" ==> |r.0| == Seqs.LastIndexOf(p, '.')
    ensures r.1 != "" ==> exists m :: Seqs.LastIndexOf(p, '/') < m < |r.0| && p[m] != '.'
    ensures r.1 == "" ==> forall k, m :: Seqs.LastIndexOf(p, '/') < m < k < |p| && p[k] == '.' ==> p[m] == '.'
  {
    var sepIndex := Seqs.LastIndexOf(p, '/');
    var dotIndex := Seqs.LastIndexOf(p, '.');
    if dotIndex > sepIndex && exists i | sepIndex + 1 <= i < dotIndex :: p[i] != '.' then
      ExtensionAtLastDot(p, sepIndex, dotIndex);
      (p[..dotIndex], p[dotIndex..])
    else
      OnlyLeadingDots(p, sepIndex, dotIndex);
      (p, "")
  }

  /** Cut at the last dot after the last `/`, the extension is that dot
      followed by neither a dot nor a `/`. */
  lemma {:induction false} ExtensionAtLastDot(p: string, sepIndex: int, dotIndex: int)
    requires sepIndex == Seqs.LastIndexOf(p, '/') && dotIndex == Seqs.LastIndexOf(p, '.')
    requires sepIndex < dotIndex
    ensures 0 <= dotIndex < |p| && p[..dotIndex] + p[dotIndex..] == p
    ensures p[dotIndex] == '.' && '.' !in p[dotIndex + 1..] && '/' !in p[dotIndex..]
  {
    var ext := p[dotIndex..];
    assert forall j :: 0 <= j < |ext| ==> ext[j] == p[dotIndex + j];
    assert '/' !in ext;
    assert '.' !in ext[1..];
  }

  /** When no character other than a dot precedes the last dot of the final
      component (or that component has no dot), every dot of it is preceded
      only by dots. */
  lemma {:induction false} OnlyLeadingDots(p: string, sepIndex: int, dotIndex: int)
    requires sepIndex == Seqs.LastIndexOf(p, '/') && dotIndex == Seqs.LastIndexOf(p, '.')
    requires !(dotIndex > sepIndex && exists i | sepIndex + 1 <= i < dotIndex :: p[i] != '.')
    ensures forall k, m :: sepIndex < m < k < |p| && p[k] == '.' ==> p[m] == '.'
  {
    forall k, m | sepIndex < m < k < |p| && p[k] == '.'
      ensures p[m] == '.'
    {
      assert k <= dotIndex;
    }
  }

  /** The values compared by the deformation code's extension guard. */
  datatype Value = NoneValue | Int(n: int) | Str(s: string) | Tuple(items: seq<string>)

  /** Python 2 orders values of different types: `None` before everything,
      numbers before every other type, and the remaining types by the names
      of their types (`"str"` before `"tuple"`). */
  function TypeRank(v: Value): (rank: nat)
    ensures rank <= 3
    ensures rank == 0 <==> v.NoneValue?
    ensures rank == 1 <==> v.Int?
  {
    match v
    case NoneValue => 0
    case Int(_) => 1
    case Str(_) => 2
    case Tuple(_) => 3
  }

  /** Lexicographic `<` on strings, by character code. */
  function StrLess(a: string, b: string): bool
  {
    if a == [] then b != []
    else if b == [] then false
    else if a[0] != b[0] then a[0] < b[0]
    else StrLess(a[1..], b[1..])
  }

  /** Lexicographic `<` on tuples of strings: the first differing item
      decides, otherwise the shorter tuple is smaller. */
  function TupleLess(a: seq<string>, b: seq<string>): bool
  {
    if a == [] then b != []
    else if b == [] then false
    else if a[0] != b[0] then StrLess(a[0], b[0])
    else TupleLess(a[1..], b[1..])
  }

  lemma {:induction false} StrLessAsymmetric(a: string, b: string)
    ensures !(StrLess(a, b) && StrLess(b, a))
    decreases |a|
  {
    if a != [] && b != [] && a[0] == b[0] {
      StrLessAsymmetric(a[1..], b[1..]);
    }
  }

  lemma {:induction false} TupleLessAsymmetric(a: seq<string>, b: seq<string>)
    ensures !(TupleLess(a, b) && TupleLess(b, a))
    decreases |a|
  {
    if a != [] && b != [] {
      if a[0] == b[0] {
        TupleLessAsymmetric(a[1..], b[1..]);
      } else {
        StrLessAsymmetric(a[0], b[0]);
      }
    }
  }

  /** Python 2's `a < b`: values of one type compare by value, values of
      different types by the rank of their types. No value is less than
      itself. */
  function Less(a: Value, b: Value): (less: bool)
    ensures TypeRank(a) != TypeRank(b) ==> (less <==> TypeRank(a) < TypeRank(b))
    ensures a == b ==> !less
  {
    match (a, b)
    case (Int(x), Int(y)) => x < y
    case (Str(x), Str(y)) => StrLessAsymmetric(x, y); StrLess(x, y)
    case (Tuple(x), Tuple(y)) => TupleLessAsymmetric(x, y); TupleLess(x, y)
    case (NoneValue, NoneValue) => false
    case _ => TypeRank(a) < TypeRank(b)
  }

  /** The order is strict: no two values are each less than the other. */
  lemma {:induction false} LessAsymmetric(a: Value, b: Value)
    ensures !(Less(a, b) && Less(b, a))
  {
    match (a, b)
    case (Str(x), Str(y)) => StrLessAsymmetric(x, y);
    case (Tuple(x), Tuple(y)) => TupleLessAsymmetric(x, y);
    case _ =>
  }

  /** Python 2's `a > b`: a tuple is greater than every number. */
  predicate Greater(a: Value, b: Value): (greater: bool)
    ensures a.Tuple? && b.Int? ==> greater
  {
    Less(b, a)
  }
}
