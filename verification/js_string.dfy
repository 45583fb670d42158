/**
 * The few ECMAScript string operations the chat code relies on:
 * `String.prototype.trim`, `indexOf`, `split` with a string separator,
 * and the truthiness of a string that may be `undefined`.
 */
module JsString {
  import opened Wrappers

  /** JavaScript truthiness of a string-or-undefined value: only a present, non-empty string is truthy. */
  predicate Truthy(v: Option<string>) {
    v.Some? && v.value != ""
  }

  /** The code points `trim` removes: ECMAScript WhiteSpace (including every Zs character) and LineTerminator. */
  predicate IsWhite(c: char) {
    || c == '\t' || c == '\n' || c == '\U{000B}' || c == '\U{000C}' || c == '\r' || c == ' '
    || c == '\U{00A0}' || c == '\U{1680}' || ('\U{2000}' <= c <= '\U{200A}')
    || c == '\U{2028}' || c == '\U{2029}' || c == '\U{202F}' || c == '\U{205F}'
    || c == '\U{3000}' || c == '\U{FEFF}'
  }

  predicate AllWhite(s: string) {
    forall i :: 0 <= i < |s| ==> IsWhite(s[i])
  }

  /** Leading white space removed: `r` is the longest suffix of `s` that does not start with white space. */
  function TrimStart(s: string): (r: string)
    ensures |r| <= |s| && r == s[|s| - |r|..]
    ensures AllWhite(s[..|s| - |r|])
    ensures r != [] ==> !IsWhite(r[0])
    decreases |s|
  {
    if |s| > 0 && IsWhite(s[0]) then
      var r := TrimStart(s[1..]);
      ConsSlices(s, |s| - |r|);
      r
    else s
  }

  /** Trailing white space removed: `r` is the longest prefix of `s` that does not end with white space. */
  function TrimEnd(s: string): (r: string)
    ensures |r| <= |s| && r == s[..|r|]
    ensures AllWhite(s[|r|..])
    ensures r != [] ==> !IsWhite(r[|r| - 1])
    decreases |s|
  {
    if |s| > 0 && IsWhite(s[|s| - 1]) then
      var r := TrimEnd(s[..|s| - 1]);
      SnocSlices(s, |r|);
      r
    else s
  }

  /** Cutting `s` at `k` after setting its first character aside. */
  lemma ConsSlices(s: string, k: nat)
    requires 1 <= k <= |s| && IsWhite(s[0]) && AllWhite(s[1..][..k - 1])
    ensures s[k..] == s[1..][k - 1..] && AllWhite(s[..k])
  {
    assert s[..k] == [s[0]] + s[1..][..k - 1];
  }

  /** Cutting `s` at `k` after setting its last character aside. */
  lemma SnocSlices(s: string, k: nat)
    requires k < |s| && IsWhite(s[|s| - 1]) && AllWhite(s[..|s| - 1][k..])
    ensures s[..k] == s[..|s| - 1][..k] && AllWhite(s[k..])
  {
    assert s[k..] == s[..|s| - 1][k..] + [s[|s| - 1]];
  }

  /** `String.prototype.trim`. */
  function Trim(s: string): string {
    TrimEnd(TrimStart(s))
  }

  /** The test `line.trim() !== ""` of the formatters. */
  predicate NonBlank(line: string) {
    Trim(line) != ""
  }

  /** The trimmed string is the slice `s[lo..hi]`: only white space is cut, and only at the two ends. */
  lemma TrimSlice(s: string) returns (lo: nat, hi: nat)
    ensures lo <= hi <= |s| && Trim(s) == s[lo..hi]
    ensures AllWhite(s[..lo]) && AllWhite(s[hi..])
    ensures Trim(s) != [] ==> !IsWhite(Trim(s)[0]) && !IsWhite(Trim(s)[|Trim(s)| - 1])
  {
    var t := TrimStart(s);
    var u := TrimEnd(t);
    lo := |s| - |t|;
    hi := lo + |u|;
    SliceOfSlices(s, t, u, lo);
  }

  /** `u` is a prefix of the suffix `t == s[lo..]`: both are slices of `s`. */
  lemma SliceOfSlices(s: string, t: string, u: string, lo: nat)
    requires lo <= |s| && t == s[lo..]
    requires |u| <= |t| && u == t[..|u|]
    ensures lo + |u| <= |s| && u == s[lo..lo + |u|] && s[lo + |u|..] == t[|u|..]
    ensures u != [] ==> u[0] == t[0]
  {
  }

  /** A line is blank (dropped by the formatters) exactly when every character of it is white space. */
  lemma BlankIffAllWhite(s: string)
    ensures !NonBlank(s) <==> AllWhite(s)
  {
    var lo, hi := TrimSlice(s);
  }

  /** Trimming twice is trimming once. */
  lemma TrimIdempotent(s: string)
    ensures Trim(Trim(s)) == Trim(s)
  {
    var a := TrimStart(s);
    var t := TrimEnd(a);
    if t != [] {
      assert t[0] == a[0];
    }
    assert TrimStart(t) == t;
    assert TrimEnd(t) == t;
  }

  /** `sep` occurs in `s` starting at index `i`. */
  predicate OccursAt(s: string, sep: string, i: nat) {
    i + |sep| <= |s| && s[i..i + |sep|] == sep
  }

  predicate Contains(s: string, sep: string) {
    exists i: nat :: i <= |s| && OccursAt(s, sep, i)
  }

  /**
   * `s.indexOf(sep, from)` for a non-empty `sep` (every caller's), with `None` for -1: the
   * first occurrence of `sep` at or after `from`. For an empty `sep` and `from > |s|`
   * JavaScript answers `|s|` where this answers `None`.
   */
  function IndexOf(s: string, sep: string, from: nat): (r: Option<nat>)
    ensures r.Some? ==> from <= r.value && OccursAt(s, sep, r.value)
    ensures forall j: nat :: from <= j && (r.None? || j < r.value) ==> !OccursAt(s, sep, j)
    decreases |s| - from
  {
    if from + |sep| > |s| then None
    else if OccursAt(s, sep, from) then Some(from)
    else IndexOf(s, sep, from + 1)
  }

  /** Text appended after an occurrence does not move the first occurrence. */
  lemma IndexOfExtend(s: string, t: string, sep: string, from: nat)
    requires IndexOf(s, sep, from).Some?
    ensures IndexOf(s + t, sep, from) == IndexOf(s, sep, from)
  {
    var i := IndexOf(s, sep, from).value;
    assert (s + t)[i..i + |sep|] == s[i..i + |sep|];
    assert OccursAt(s + t, sep, i);
    var r := IndexOf(s + t, sep, from);
    if r.Some? && r.value < i {
      var j := r.value;
      assert (s + t)[j..j + |sep|] == s[j..j + |sep|];
      assert OccursAt(s, sep, j);
    }
  }

  /** `indexOf` reports -1 exactly when `sep` occurs nowhere. */
  lemma IndexOfAbsent(s: string, sep: string)
    ensures IndexOf(s, sep, 0).None? <==> !Contains(s, sep)
  {
    if IndexOf(s, sep, 0).Some? {
      assert OccursAt(s, sep, IndexOf(s, sep, 0).value);
    }
  }

  /**
   * `s.split(sep)` for a non-empty separator string: cut at the leftmost occurrence,
   * then continue after it; `"".split(sep)` is `[""]`.
   */
  function Split(s: string, sep: string): (r: seq<string>)
    requires |sep| > 0
    ensures |r| >= 1
    decreases |s|
  {
    match IndexOf(s, sep, 0)
    case None => [s]
    case Some(i) => [s[..i]] + Split(s[i + |sep|..], sep)
  }

  /** The text before the first occurrence of `sep`, or all of `s` when there is none. */
  function Before(s: string, sep: string): string {
    match IndexOf(s, sep, 0)
    case None => s
    case Some(i) => s[..i]
  }

  /** The text after the first occurrence of `sep`, or `""` when there is none. */
  function After(s: string, sep: string): string {
    match IndexOf(s, sep, 0)
    case None => ""
    case Some(i) => s[i + |sep|..]
  }

  /** Once `sep` occurs, appended text lands after it. */
  lemma AfterExtend(s: string, t: string, sep: string)
    requires IndexOf(s, sep, 0).Some?
    ensures After(s + t, sep) == After(s, sep) + t
  {
    var i := IndexOf(s, sep, 0).value;
    IndexOfExtend(s, t, sep, 0);
    AfterAt(s, sep, i);
    AfterAt(s + t, sep, i);
    DropAppend(s, t, i + |sep|);
  }

  lemma AfterAt(s: string, sep: string, i: nat)
    requires IndexOf(s, sep, 0) == Some(i)
    ensures i + |sep| <= |s| && After(s, sep) == s[i + |sep|..]
  {
  }

  lemma DropAppend(s: string, t: string, k: nat)
    requires k <= |s|
    ensures (s + t)[k..] == s[k..] + t
  {
  }

  /** Once `sep` occurs, appending text does not change what comes before it. */
  lemma BeforeExtend(s: string, t: string, sep: string)
    requires IndexOf(s, sep, 0).Some?
    ensures Before(s + t, sep) == Before(s, sep)
  {
    var i := IndexOf(s, sep, 0).value;
    IndexOfExtend(s, t, sep, 0);
    assert (s + t)[..i] == s[..i];
  }

  /**
   * The first two pieces of a split: the text before the first separator, and the text
   * between the first and the second; there is a second piece exactly when the
   * separator occurs.
   */
  lemma SplitFirstPieces(s: string, sep: string)
    requires |sep| > 0
    ensures Split(s, sep)[0] == Before(s, sep)
    ensures |Split(s, sep)| >= 2 <==> IndexOf(s, sep, 0).Some?
    ensures |Split(s, sep)| >= 2 ==> Split(s, sep)[1] == Before(After(s, sep), sep)
  {
    match IndexOf(s, sep, 0)
    case None =>
    case Some(i) =>
      var rest := s[i + |sep|..];
      match IndexOf(rest, sep, 0)
      case None =>
      case Some(j) =>
  }

  /** `parts.join(sep)`. */
  function Join(parts: seq<string>, sep: string): string
    requires |parts| >= 1
  {
    if |parts| == 1 then parts[0] else parts[0] + sep + Join(parts[1..], sep)
  }

  /** Splitting loses nothing: joining the pieces with the separator gives back the string. */
  lemma {:induction false} JoinSplit(s: string, sep: string)
    requires |sep| > 0
    ensures Join(Split(s, sep), sep) == s
    decreases |s|
  {
    match IndexOf(s, sep, 0)
    case None =>
    case Some(i) =>
      var rest := s[i + |sep|..];
      JoinSplit(rest, sep);
      JoinStep(s, sep, i, Split(s, sep), Split(rest, sep));
  }

  /** The inductive step of `JoinSplit`: the piece before an occurrence, the separator, and the rest. */
  lemma JoinStep(s: string, sep: string, i: nat, parts: seq<string>, restParts: seq<string>)
    requires i + |sep| <= |s| && s[i..i + |sep|] == sep
    requires |restParts| >= 1 && Join(restParts, sep) == s[i + |sep|..]
    requires parts == [s[..i]] + restParts
    ensures Join(parts, sep) == s
  {
    assert parts[1..] == restParts;
    Reassemble(s, i, i + |sep|);
  }

  /** A string is the concatenation of its three slices at `i` and `k`. */
  lemma Reassemble(s: string, i: nat, k: nat)
    requires i <= k <= |s|
    ensures s == s[..i] + s[i..k] + s[k..]
  {
  }

  /** No piece of a split contains the separator. */
  lemma {:induction false} SplitPiecesFree(s: string, sep: string)
    requires |sep| > 0
    ensures forall k :: 0 <= k < |Split(s, sep)| ==> !Contains(Split(s, sep)[k], sep)
    decreases |s|
  {
    match IndexOf(s, sep, 0)
    case None =>
      forall j: nat | j <= |s| ensures !OccursAt(s, sep, j) { }
    case Some(i) =>
      var rest := s[i + |sep|..];
      SplitPiecesFree(rest, sep);
      var head := s[..i];
      forall j: nat | j <= |head| ensures !OccursAt(head, sep, j) {
        if OccursAt(head, sep, j) {
          assert head[j..j + |sep|] == s[j..j + |sep|];
          assert OccursAt(s, sep, j);
        }
      }
      forall k | 0 <= k < |Split(s, sep)| ensures !Contains(Split(s, sep)[k], sep) {
        if k > 0 {
          assert Split(s, sep)[k] == Split(rest, sep)[k - 1];
        }
      }
  }

  lemma {:induction false} IndexOfAppend(a: string, sep: string, b: string, from: nat)
    requires |sep| == 1 && from <= |a|
    ensures IndexOf(a + sep + b, sep, from) == if IndexOf(a, sep, from).Some? then IndexOf(a, sep, from) else Some(|a|)
    decreases |a| - from
  {
    var s := a + sep + b;
    if from == |a| {
      assert s[from..from + 1] == sep;
    } else {
      assert s[from..from + 1] == a[from..from + 1];
      IndexOfAppend(a, sep, b, from + 1);
    }
  }

  /** With a one-character separator, splitting `a + sep + b` splits `a` and `b` separately. */
  lemma {:induction false} SplitAppend(a: string, sep: string, b: string)
    requires |sep| == 1
    ensures Split(a + sep + b, sep) == Split(a, sep) + Split(b, sep)
    decreases |a|
  {
    var s := a + sep + b;
    IndexOfAppend(a, sep, b, 0);
    match IndexOf(a, sep, 0)
    case None =>
      assert s[..|a|] == a && s[|a| + 1..] == b;
    case Some(i) =>
      assert s[..i] == a[..i];
      assert s[i + 1..] == a[i + 1..] + sep + b;
      SplitAppend(a[i + 1..], sep, b);
  }

  /** A one-character separator is found exactly when the character occurs. */
  lemma {:induction false} IndexOfChar(s: string, c: char, from: nat)
    requires from <= |s|
    ensures IndexOf(s, [c], from).None? <==> c !in s[from..]
    decreases |s| - from
  {
    if from < |s| {
      assert s[from..from + 1] == [s[from]];
      assert s[from..] == [s[from]] + s[from + 1..];
      IndexOfChar(s, c, from + 1);
    }
  }

  /** A string without the character is one piece. */
  lemma SplitWithoutChar(s: string, c: char)
    requires c !in s
    ensures Split(s, [c]) == [s]
  {
    IndexOfChar(s, c, 0);
    assert s[0..] == s;
  }

  /** Containing a one-character string is containing that character. */
  lemma ContainsChar(s: string, c: char)
    ensures Contains(s, [c]) <==> c in s
  {
    if c in s {
      var i :| 0 <= i < |s| && s[i] == c;
      assert OccursAt(s, [c], i);
    }
    if Contains(s, [c]) {
      var i: nat :| i <= |s| && OccursAt(s, [c], i);
      assert s[i] == s[i..i + 1][0];
    }
  }
}
