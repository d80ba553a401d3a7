/** The JavaScript string operations the core relies on: `trim`, `toLowerCase`,
    `startsWith`/`endsWith`, `indexOf`/`lastIndexOf`, `split` and `join`. */
module JsString {
  import opened Wrappers

  /** The code points `String.prototype.trim` removes: ECMAScript's WhiteSpace
      and LineTerminator productions. */
  predicate IsTrimmable(c: char) {
    c == '\t' || c == '\n' || c == '\U{000B}' || c == '\U{000C}' || c == '\r' || c == ' '
    || c == '\U{00A0}' || c == '\U{1680}' || ('\U{2000}' <= c <= '\U{200A}')
    || c == '\U{2028}' || c == '\U{2029}' || c == '\U{202F}' || c == '\U{205F}'
    || c == '\U{3000}' || c == '\U{FEFF}'
  }

  /** The characters a regular expression `.` does not match (no `s` flag). */
  predicate IsLineTerminator(c: char) {
    c == '\n' || c == '\r' || c == '\U{2028}' || c == '\U{2029}'
  }

  /** Lower-casing of one character, on the ASCII letters. */
  function LowerChar(c: char): (r: char)
    ensures 'A' <= c <= 'Z' ==> r as int == c as int + 32
    ensures !('A' <= c <= 'Z') ==> r == c
  {
    if 'A' <= c <= 'Z' then (c as int + 32) as char else c
  }

  /** `s.toLowerCase()`, on the ASCII letters. */
  function Lower(s: string): (r: string)
    ensures |r| == |s|
    ensures forall i :: 0 <= i < |s| ==> r[i] == LowerChar(s[i])
  {
    seq(|s|, i requires 0 <= i < |s| => LowerChar(s[i]))
  }

  lemma LowerAppend(a: string, b: string)
    ensures Lower(a + b) == Lower(a) + Lower(b)
  {
  }

  lemma LowerIdempotent(s: string)
    ensures Lower(Lower(s)) == Lower(s)
  {
  }

  predicate StartsWith(s: string, prefix: string) {
    |prefix| <= |s| && s[..|prefix|] == prefix
  }

  predicate EndsWith(s: string, suffix: string) {
    |suffix| <= |s| && s[|s| - |suffix|..] == suffix
  }

  /** The leading run of trimmable characters removed. */
  function TrimStart(s: string): (r: string)
    ensures |r| <= |s| && r == s[|s| - |r|..]
    ensures r == [] || !IsTrimmable(r[0])
    ensures forall i :: 0 <= i < |s| - |r| ==> IsTrimmable(s[i])
    decreases |s|
  {
    if s != [] && IsTrimmable(s[0]) then
      var t := TrimStart(s[1..]);
      SubSlice(s, 1, |s|, |s| - 1 - |t|, |t|);
      assert forall i :: 1 <= i < |s| ==> s[1..][i - 1] == s[i];
      t
    else s
  }

  /** The trailing run of trimmable characters removed. */
  function TrimEnd(s: string): (r: string)
    ensures |r| <= |s| && r == s[..|r|]
    ensures r == [] || !IsTrimmable(r[|r| - 1])
    ensures forall i :: |r| <= i < |s| ==> IsTrimmable(s[i])
    decreases |s|
  {
    if s != [] && IsTrimmable(s[|s| - 1]) then
      var t := TrimEnd(s[..|s| - 1]);
      SubSlice(s, 0, |s| - 1, 0, |t|);
      assert forall i :: 0 <= i < |s| - 1 ==> s[..|s| - 1][i] == s[i];
      t
    else s
  }

  /** `r` is the slice of `s` from `k`, and every character before and after
      that slice is trimmable. */
  predicate TrimmedAt(s: string, r: string, k: int) {
    && 0 <= k <= |s| - |r| && r == s[k..k + |r|]
    && (forall i :: 0 <= i < k ==> IsTrimmable(s[i]))
    && (forall i :: k + |r| <= i < |s| ==> IsTrimmable(s[i]))
  }

  /** `r` is what is left of `s` after cutting away trimmable characters at both ends. */
  predicate TrimmedFrom(s: string, r: string) {
    exists k :: 0 <= k <= |s| && TrimmedAt(s, r, k)
  }

  /** `s.trim()`: the result is a contiguous piece of `s`, neither end of it is
      trimmable, and everything cut away is. */
  function Trim(s: string): (r: string)
    ensures exists k {:trigger s[k..]} :: 0 <= k <= |s| - |r| && r == s[k..k + |r|]
    ensures r == [] || (!IsTrimmable(r[0]) && !IsTrimmable(r[|r| - 1]))
    ensures TrimmedFrom(s, r)
  {
    var t := TrimStart(s);
    var r := TrimEnd(t);
    SubSlice(s, |s| - |t|, |s|, 0, |r|);
    TrimCuts(s, t, r);
    r
  }

  lemma TrimCuts(s: string, t: string, r: string)
    requires |t| <= |s| && t == s[|s| - |t|..]
    requires forall i :: 0 <= i < |s| - |t| ==> IsTrimmable(s[i])
    requires |r| <= |t| && r == t[..|r|]
    requires forall i :: |r| <= i < |t| ==> IsTrimmable(t[i])
    ensures TrimmedAt(s, r, |s| - |t|)
  {
    var k := |s| - |t|;
    forall i | k + |r| <= i < |s| ensures IsTrimmable(s[i]) {
      assert s[i] == t[i - k];
    }
    SubSlice(s, k, |s|, 0, |r|);
  }

  /** A slice of a slice is a slice of the whole. */
  lemma SubSlice(s: string, lo: int, hi: int, j: int, n: nat)
    requires 0 <= lo <= hi <= |s| && 0 <= j && j + n <= hi - lo
    ensures s[lo..hi][j..j + n] == s[lo + j..lo + j + n]
  {
    var a := s[lo..hi][j..j + n];
    var b := s[lo + j..lo + j + n];
    forall k | 0 <= k < n ensures a[k] == b[k] {
      assert a[k] == s[lo + j + k];
    }
  }

  lemma TrimStartFixed(s: string)
    requires s == [] || !IsTrimmable(s[0])
    ensures TrimStart(s) == s
  {
  }

  lemma TrimEndFixed(s: string)
    requires s == [] || !IsTrimmable(s[|s| - 1])
    ensures TrimEnd(s) == s
  {
  }

  /** A string whose ends are not trimmable is its own trim. */
  lemma TrimFixed(s: string)
    requires s == [] || (!IsTrimmable(s[0]) && !IsTrimmable(s[|s| - 1]))
    ensures Trim(s) == s
  {
    TrimStartFixed(s);
    TrimEndFixed(s);
  }

  /** Trimming twice is trimming once. */
  lemma TrimIdempotent(s: string)
    ensures Trim(Trim(s)) == Trim(s)
  {
    TrimFixed(Trim(s));
  }

  /** `sep` occurs in `s` at index `j`. */
  predicate OccursAt(s: string, sep: string, j: int) {
    0 <= j && j + |sep| <= |s| && s[j..j + |sep|] == sep
  }

  predicate Contains(s: string, sep: string) {
    exists j :: 0 <= j <= |s| && OccursAt(s, sep, j)
  }

  /** `s.indexOf(sep)`, with `None` for JavaScript's -1. */
  function IndexOf(s: string, sep: string): (r: Option<nat>)
    requires sep != []
    ensures r.Some? ==> OccursAt(s, sep, r.value)
    ensures r.Some? ==> forall j :: 0 <= j < r.value ==> !OccursAt(s, sep, j)
    ensures r.None? ==> !Contains(s, sep)
    decreases |s|
  {
    if |s| < |sep| then None
    else if s[..|sep|] == sep then Some(0)
    else
      var tail := IndexOf(s[1..], sep);
      forall j | 1 <= j
        ensures OccursAt(s, sep, j) <==> OccursAt(s[1..], sep, j - 1)
      {
        if j + |sep| <= |s| {
          TailSlice(s, j, |sep|);
        }
      }
      match tail
      case None => None
      case Some(i) => Some(i + 1)
  }

  /** A slice of `s` away from its head is the same slice of its tail, shifted. */
  lemma TailSlice(s: string, j: int, n: nat)
    requires 1 <= j && j + n <= |s|
    ensures s[j..j + n] == s[1..][j - 1..j - 1 + n]
  {
    assert s[1..] == s[1..|s|];
    SubSlice(s, 1, |s|, j - 1, n);
  }

  /** `s.split(sep)` for a non-empty separator: the pieces between the
      occurrences of `sep`, found from the left without overlap. */
  function Split(s: string, sep: string): (r: seq<string>)
    requires sep != []
    ensures |r| >= 1
    decreases |s|
  {
    match IndexOf(s, sep)
    case None => [s]
    case Some(i) => [s[..i]] + Split(s[i + |sep|..], sep)
  }

  /** No piece of a split contains the separator. */
  lemma {:induction false} SplitPiecesFree(s: string, sep: string)
    requires sep != []
    ensures forall k :: 0 <= k < |Split(s, sep)| ==> !Contains(Split(s, sep)[k], sep)
    decreases |s|
  {
    var idx := IndexOf(s, sep);
    if idx.Some? {
      var i := idx.value;
      assert OccursAt(s, sep, i);
      var head := s[..i];
      forall j | 0 <= j <= |head|
        ensures !OccursAt(head, sep, j)
      {
        if j + |sep| <= |head| {
          SubSlice(s, 0, i, j, |sep|);
          assert !OccursAt(s, sep, j);
        }
      }
      SplitPiecesFree(s[i + |sep|..], sep);
    }
  }

  /** A one-character separator occurs exactly where that character stands. */
  lemma OccursSingle(s: string, c: char, j: int)
    requires 0 <= j < |s|
    ensures OccursAt(s, [c], j) <==> s[j] == c
  {
    assert s[j..j + 1] == [s[j]];
  }

  /** `parts.join(sep)` */
  function Join(parts: seq<string>, sep: string): string
    decreases |parts|
  {
    if parts == [] then ""
    else if |parts| == 1 then parts[0]
    else parts[0] + sep + Join(parts[1..], sep)
  }

  /** Joining the pieces of a split with the same separator gives back the string. */
  lemma {:induction false} JoinSplit(s: string, sep: string)
    requires sep != []
    ensures Join(Split(s, sep), sep) == s
    decreases |s|
  {
    match IndexOf(s, sep)
    case None =>
    case Some(i) =>
      var rest := s[i + |sep|..];
      var tail := Split(rest, sep);
      SplitAt(s, sep, i);
      JoinSplit(rest, sep);
      JoinCons(s[..i], tail, sep);
  }

  /** One step of a split: the piece before the first separator, then the
      split of the rest. */
  lemma SplitAt(s: string, sep: string, i: nat)
    requires sep != [] && IndexOf(s, sep) == Some(i)
    ensures i + |sep| <= |s| && s == s[..i] + sep + s[i + |sep|..]
    ensures Split(s, sep) == [s[..i]] + Split(s[i + |sep|..], sep)
  {
    assert OccursAt(s, sep, i);
    var t := s[..i] + sep + s[i + |sep|..];
    forall k | 0 <= k < |s| ensures t[k] == s[k] {
      if i <= k < i + |sep| {
        assert sep[k - i] == s[i..i + |sep|][k - i];
      }
    }
    assert t == s;
  }

  lemma JoinCons(head: string, tail: seq<string>, sep: string)
    requires tail != []
    ensures Join([head] + tail, sep) == head + sep + Join(tail, sep)
  {
    assert ([head] + tail)[1..] == tail;
  }

  /** For a one-character separator, splitting a join of separator-free pieces
      gives back the pieces. */
  lemma {:induction false} SplitJoin(parts: seq<string>, c: char)
    requires parts != []
    requires forall k :: 0 <= k < |parts| ==> c !in parts[k]
    ensures Split(Join(parts, [c]), [c]) == parts
    decreases |parts|
  {
    var s := Join(parts, [c]);
    if |parts| == 1 {
      NoCharNoOccurrence(parts[0], c);
    } else {
      var rest := Join(parts[1..], [c]);
      assert s == parts[0] + [c] + rest;
      var n := |parts[0]|;
      assert OccursAt(s, [c], n);
      forall j | 0 <= j < n ensures !OccursAt(s, [c], j) {
        assert s[j] == parts[0][j];
      }
      assert IndexOf(s, [c]) == Some(n);
      assert s[..n] == parts[0];
      assert s[n + 1..] == rest;
      SplitJoin(parts[1..], c);
    }
  }

  lemma NoCharNoOccurrence(s: string, c: char)
    requires c !in s
    ensures IndexOf(s, [c]) == None
  {
    forall j | 0 <= j < |s| ensures !OccursAt(s, [c], j) {
      OccursSingle(s, c, j);
    }
  }

  /** `s.lastIndexOf(c)`: -1 when `c` does not occur. */
  function LastIndexOf(s: string, c: char): (r: int)
    ensures -1 <= r < |s|
    ensures r >= 0 ==> s[r] == c
    ensures forall j :: r < j < |s| ==> s[j] != c
    decreases |s|
  {
    if s == [] then -1
    else if s[|s| - 1] == c then |s| - 1
    else
      var init := s[..|s| - 1];
      assert forall j :: 0 <= j < |init| ==> init[j] == s[j];
      LastIndexOf(init, c)
  }

  /** The last element of a split on `c` (`s.split(c).pop()`) is the text after
      the last `c`, or all of `s` when it has none. */
  lemma LastPieceAfterLastSlash(s: string, c: char)
    ensures var pieces := Split(s, [c]);
      pieces[|pieces| - 1] == s[LastIndexOf(s, c) + 1..]
  {
    var n := LastPieceStart(s, c);
    FollowsLastUnique(s, n, LastIndexOf(s, c) + 1, c);
  }

  /** Index `n` of `s` comes right after a `c` (or is 0), and no `c` stands at
      `n` or later. */
  predicate FollowsLast(s: string, n: int, c: char) {
    && 0 <= n <= |s|
    && (forall j :: n <= j < |s| ==> s[j] != c)
    && (n > 0 ==> s[n - 1] == c)
  }

  /** The last piece of a split on `c` is the suffix that follows the last `c`. */
  lemma LastPieceStart(s: string, c: char) returns (n: int)
    ensures var pieces := Split(s, [c]);
      0 <= n <= |s| && pieces[|pieces| - 1] == s[n..] && FollowsLast(s, n, c)
  {
    var pieces := Split(s, [c]);
    var last := pieces[|pieces| - 1];
    n := |s| - |last|;
    LastPieceIsSuffix(s, c);
    LastPieceFree(s, c);
    NoneAfter(s, n, c);
  }

  /** At most one index of `s` follows its last `c`. */
  lemma FollowsLastUnique(s: string, n: int, m: int, c: char)
    requires FollowsLast(s, n, c) && FollowsLast(s, m, c)
    ensures n == m
  {
  }

  /** A character missing from a suffix occurs at no index of it. */
  lemma NoneAfter(s: string, n: nat, c: char)
    requires n <= |s| && c !in s[n..]
    ensures forall j :: n <= j < |s| ==> s[j] != c
  {
    forall j | n <= j < |s| ensures s[j] != c {
      assert s[j] == s[n..][j - n];
    }
  }

  /** The last piece of a split on `c` holds no `c`. */
  lemma LastPieceFree(s: string, c: char)
    ensures c !in Split(s, [c])[|Split(s, [c])| - 1]
  {
    var pieces := Split(s, [c]);
    var last := pieces[|pieces| - 1];
    assert !Contains(last, [c]) by {
      SplitPiecesFree(s, [c]);
    }
    forall j | 0 <= j < |last| ensures last[j] != c {
      OccursSingle(last, c, j);
    }
  }

  /** The last index of `c` is the one index holding `c` with no `c` after it
      (-1 when there is none). */
  lemma LastIndexOfUnique(s: string, c: char, i: int)
    requires -1 <= i < |s| && (i >= 0 ==> s[i] == c)
    requires forall j :: i < j < |s| ==> s[j] != c
    ensures LastIndexOf(s, c) == i
  {
  }

  /** The last piece of a split ends the string, right after a separator when
      there is more than one piece. */
  lemma {:induction false} LastPieceIsSuffix(s: string, c: char)
    ensures var pieces := Split(s, [c]);
      var last := pieces[|pieces| - 1];
      && |last| <= |s| && s[|s| - |last|..] == last
      && (|last| < |s| ==> s[|s| - |last| - 1] == c)
    decreases |s|
  {
    match IndexOf(s, [c])
    case None =>
      SplitWhole(s, [c]);
      assert s[0..] == s;
    case Some(i) =>
      var rest := s[i + 1..];
      var tail := Split(rest, [c]);
      LastPieceStep(s, c, i);
      LastPieceIsSuffix(rest, c);
      var last := tail[|tail| - 1];
      SuffixOfSuffix(s, i + 1, |rest| - |last|);
      if |last| == |rest| {
        assert s[|s| - |last| - 1] == s[i];
      } else {
        assert s[|s| - |last| - 1] == rest[|rest| - |last| - 1];
      }
  }

  /** The last piece of a split is that of what follows the first separator. */
  lemma LastPieceStep(s: string, c: char, i: nat)
    requires IndexOf(s, [c]) == Some(i)
    ensures i < |s| && s[i] == c
    ensures var pieces, tail := Split(s, [c]), Split(s[i + 1..], [c]);
      pieces[|pieces| - 1] == tail[|tail| - 1]
  {
    SplitStep(s, c, i);
    var tail := Split(s[i + 1..], [c]);
    assert Split(s, [c]) == [s[..i]] + tail;
  }

  lemma SplitWhole(s: string, sep: string)
    requires sep != [] && IndexOf(s, sep) == None
    ensures Split(s, sep) == [s]
  {
  }

  lemma SplitStep(s: string, c: char, i: nat)
    requires IndexOf(s, [c]) == Some(i)
    ensures i < |s| && s[i] == c
    ensures Split(s, [c]) == [s[..i]] + Split(s[i + 1..], [c])
  {
    assert OccursAt(s, [c], i);
    OccursSingle(s, c, i);
    assert |[c]| == 1;
    assert Split(s, [c]) == [s[..i]] + Split(s[i + |[c]|..], [c]);
  }

  lemma SuffixOfSuffix(s: string, a: nat, b: nat)
    requires a + b <= |s|
    ensures s[a..][b..] == s[a + b..]
  {
    var x := s[a..][b..];
    var y := s[a + b..];
    forall k | 0 <= k < |y| ensures x[k] == y[k] {
      assert x[k] == s[a + b + k];
    }
  }
}
