/**
 * File-system paths as `pathlib` treats them, purely syntactically: an optional
 * root followed by a list of segments. Nothing here touches a file system.
 */
module Paths {
  import opened Wrappers

  datatype Path = Path(absolute: bool, parts: seq<string>)

  /** `p / name`. */
  function Join(p: Path, name: string): Path {
    p.(parts := p.parts + [name])
  }

  /** `p.name`: the final segment, or "" for a bare root or ".". */
  function Name(p: Path): string {
    if p.parts == [] then "" else p.parts[|p.parts| - 1]
  }

  /** `p.parent`: the path without its final segment; a bare root or "." is its own parent. */
  function Parent(p: Path): Path {
    if p.parts == [] then p else p.(parts := p.parts[..|p.parts| - 1])
  }

  /** `str.rfind('.')`: the position of the last dot, if any. */
  function LastDot(s: string): (r: Option<nat>)
    ensures r.Some? ==> r.value < |s| && s[r.value] == '.' && forall k | r.value < k < |s| :: s[k] != '.'
    ensures r.None? ==> forall k | 0 <= k < |s| :: s[k] != '.'
  {
    if s == [] then None
    else if s[|s| - 1] == '.' then Some(|s| - 1)
    else LastDot(s[..|s| - 1])
  }

  /**
   * `p.suffix`: the final segment from its last dot on, provided that dot is
   * neither the first nor the last character of the segment; "" otherwise.
   */
  function Suffix(p: Path): string {
    var name := Name(p);
    match LastDot(name)
    case Some(i) => if 0 < i < |name| - 1 then name[i..] else ""
    case None => ""
  }

  /**
   * For an extension such as ".csv" (a dot followed by at least one dot-free
   * character), a path has that suffix iff its final segment ends with it and
   * is longer than it. The comparison is exact: ".CSV" is a different suffix.
   */
  lemma SuffixIs(p: Path, ext: string)
    requires |ext| >= 2 && ext[0] == '.'
    requires forall k | 1 <= k < |ext| :: ext[k] != '.'
    ensures Suffix(p) == ext <==> |Name(p)| > |ext| && Name(p)[|Name(p)| - |ext|..] == ext
  {
    var name := Name(p);
    if |name| > |ext| && name[|name| - |ext|..] == ext {
      var i := |name| - |ext|;
      assert name[i] == ext[0];
      forall k | i < k < |name| ensures name[k] != '.' {
        assert name[k] == ext[k - i];
      }
      assert LastDot(name) == Some(i);
    }
  }

  function Digit(d: nat): char
    requires d < 10
  {
    (48 + d) as char
  }

  /** `f"{n}"`: the decimal numeral of `n`, without leading zeros. */
  function NatToString(n: nat): (s: string)
    ensures |s| >= 1
    ensures |s| == 1 <==> n < 10
    decreases n
  {
    if n < 10 then [Digit(n)] else NatToString(n / 10) + [Digit(n % 10)]
  }

  /** Distinct numbers have distinct numerals. */
  lemma {:induction false} NatToStringInjective(a: nat, b: nat)
    ensures NatToString(a) == NatToString(b) ==> a == b
    decreases a
  {
    if NatToString(a) == NatToString(b) && a >= 10 && b >= 10 {
      var sa, sb := NatToString(a), NatToString(b);
      assert sa[..|sa| - 1] == NatToString(a / 10);
      assert sb[..|sb| - 1] == NatToString(b / 10);
      NatToStringInjective(a / 10, b / 10);
      assert Digit(a % 10) == sa[|sa| - 1] == sb[|sb| - 1] == Digit(b % 10);
    }
  }

  /** Different middles make different framed strings. */
  lemma FramedDistinct(prefix: string, x: string, y: string, suffix: string)
    requires x != y
    ensures prefix + x + suffix != prefix + y + suffix
  {
    if |x| == |y| {
      var k :| 0 <= k < |x| && x[k] != y[k];
      assert (prefix + x + suffix)[|prefix| + k] == x[k];
      assert (prefix + y + suffix)[|prefix| + k] == y[k];
    }
  }

  /** Joining different names onto one folder gives different paths. */
  lemma JoinDistinct(folder: Path, a: string, b: string)
    requires a != b
    ensures Join(folder, a) != Join(folder, b)
  {
    var pa, pb := Join(folder, a).parts, Join(folder, b).parts;
    assert pa[|pa| - 1] == a && pb[|pb| - 1] == b;
  }
}
