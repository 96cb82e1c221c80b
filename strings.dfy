/**
  * The JavaScript string built-ins the application relies on: `trim`, `includes`,
  * `indexOf`, `startsWith`, `split` with a string separator and `replace` of the
  * first occurrence. Whitespace is the ASCII subset of JavaScript's white space
  * and line terminators.
  */
module Strings {
  import opened Wrappers

  /** An optional string (a missing value, `null` or `undefined` is None) as a
      JavaScript condition: truthy when present and non-empty. */
  predicate Truthy(v: Option<string>) {
    v.Some? && v.value != ""
  }

  /** `a || b` on an optional string and a fallback. */
  function Or(a: Option<string>, b: string): (r: string)
    ensures Truthy(a) ==> r == a.value
    ensures !Truthy(a) ==> r == b
  {
    if Truthy(a) then a.value else b
  }

  /** ASCII white space as removed by `trim` and matched by the regular-expression class `\s`. */
  predicate IsSpace(c: char) {
    c == ' ' || c == '\t' || c == '\n' || c == '\r' || c == '\U{000B}' || c == '\U{000C}'
  }

  /** The line terminators that `.` in a regular expression does not match (ASCII part). */
  predicate IsLineTerminator(c: char) {
    c == '\n' || c == '\r'
  }

  predicate AllSpace(s: string) {
    forall k :: 0 <= k < |s| ==> IsSpace(s[k])
  }

  /** A string with no white space at either end: what `trim` returns. */
  predicate IsTrimmed(s: string) {
    s == [] || (!IsSpace(s[0]) && !IsSpace(s[|s| - 1]))
  }

  /** Drops leading white space (what it keeps and drops is `TrimStartSplits`). */
  function TrimStart(s: string): (r: string)
    ensures |r| <= |s|
    decreases |s|
  {
    if s != [] && IsSpace(s[0]) then TrimStart(s[1..]) else s
  }

  /** The result is a suffix that does not start with white space, and what was dropped is all white space. */
  lemma {:induction false} TrimStartSplits(s: string)
    ensures var r := TrimStart(s);
      && r == s[|s| - |r|..] && (r == [] || !IsSpace(r[0])) && AllSpace(s[..|s| - |r|])
    decreases |s|
  {
    if s != [] && IsSpace(s[0]) {
      TrimStartSplits(s[1..]);
      var r := TrimStart(s[1..]);
      assert s[..|s| - |r|] == [s[0]] + s[1..][..|s[1..]| - |r|];
    }
  }

  /** Leading white space in front of a text that has a non-space character
      is dropped independently of what follows. */
  lemma {:induction false} TrimStartConcat(a: string, b: string)
    requires exists i :: 0 <= i < |a| && !IsSpace(a[i])
    ensures TrimStart(a + b) == TrimStart(a) + b
  {
    if IsSpace(a[0]) {
      assert (a + b)[1..] == a[1..] + b;
      var i :| 0 <= i < |a| && !IsSpace(a[i]);
      assert i > 0 && a[1..][i - 1] == a[i];
      TrimStartConcat(a[1..], b);
    }
  }

  /** Dropping leading white space keeps a final non-space character. */
  lemma {:induction false} TrimStartKeepsLast(t: string)
    requires t != [] && !IsSpace(t[|t| - 1])
    ensures TrimStart(t) != [] && TrimStart(t)[|TrimStart(t)| - 1] == t[|t| - 1]
  {
    if IsSpace(t[0]) {
      TrimStartKeepsLast(t[1..]);
    }
  }

  /** White space followed by a non-space character is dropped altogether. */
  lemma {:induction false} TrimStartSpacesThen(w: string, b: string)
    requires AllSpace(w)
    requires b == [] || !IsSpace(b[0])
    ensures TrimStart(w + b) == b
  {
    if w != [] {
      assert (w + b)[1..] == w[1..] + b;
      TrimStartSpacesThen(w[1..], b);
    }
  }

  /** Drops trailing white space (what it keeps and drops is `TrimEndSplits`). */
  function TrimEnd(s: string): (r: string)
    ensures |r| <= |s|
    decreases |s|
  {
    if s != [] && IsSpace(s[|s| - 1]) then TrimEnd(s[..|s| - 1]) else s
  }

  /** The result is a prefix that does not end with white space, and what was dropped is all white space. */
  lemma {:induction false} TrimEndSplits(s: string)
    ensures var r := TrimEnd(s);
      && r == s[..|r|] && (r == [] || !IsSpace(r[|r| - 1])) && AllSpace(s[|r|..])
    decreases |s|
  {
    if s != [] && IsSpace(s[|s| - 1]) {
      TrimEndSplits(s[..|s| - 1]);
      var r := TrimEnd(s[..|s| - 1]);
      assert s[|r|..] == s[..|s| - 1][|r|..] + [s[|s| - 1]];
    }
  }

  /** `String.prototype.trim`. */
  function Trim(s: string): (r: string)
    ensures IsTrimmed(r) && |r| <= |s|
  {
    TrimStartSplits(s);
    TrimEndSplits(TrimStart(s));
    var u := TrimEnd(TrimStart(s));
    assert u == [] || u[0] == TrimStart(s)[0];
    u
  }

  /** Trim removes exactly the white-space padding around a trimmed core. */
  lemma TrimOfPadded(a: string, m: string, b: string)
    requires AllSpace(a) && AllSpace(b) && IsTrimmed(m)
    ensures Trim(a + m + b) == m
  {
    var s := a + m + b;
    TrimStartSplits(s);
    var t := TrimStart(s);
    var n := |s| - |t|;
    if m != [] {
      assert s[|a|] == m[0];
      assert n == |a|;
      assert t == m + b;
      TrimEndSplits(t);
      var u := TrimEnd(t);
      assert t[|m| - 1] == m[|m| - 1];
      assert |u| == |m|;
    }
  }

  /** A string that starts with a non-space character keeps a non-empty core. */
  lemma TrimKeepsNonSpaceStart(s: string)
    requires s != [] && !IsSpace(s[0])
    ensures Trim(s) != [] && Trim(s)[0] == s[0]
  {
    assert TrimStart(s) == s;
    TrimEndSplits(s);
    var u := TrimEnd(s);
  }

  lemma TrimIdempotent(s: string)
    ensures Trim(Trim(s)) == Trim(s)
  {
    TrimOfPadded([], Trim(s), []);
    assert [] + Trim(s) + [] == Trim(s);
  }

  /** `p` occurs in `s` starting at index `i`. */
  predicate OccursAt(s: string, p: string, i: nat) {
    i + |p| <= |s| && s[i..i + |p|] == p
  }

  /** `String.prototype.indexOf`: an index at which `p` occurs (the first one, by `IndexOfIsFirst`). */
  function IndexOf(s: string, p: string): (r: Option<nat>)
    ensures r.Some? ==> OccursAt(s, p, r.value)
    decreases |s|
  {
    if |s| < |p| then None
    else if s[..|p|] == p then Some(0)
    else
      match IndexOf(s[1..], p)
      case None => None
      case Some(j) =>
        assert s[1..][j..j + |p|] == s[j + 1..j + 1 + |p|];
        Some(j + 1)
  }

  /** `indexOf` finds the first occurrence, and reports none only when there is none. */
  lemma {:induction false} IndexOfIsFirst(s: string, p: string)
    ensures IndexOf(s, p).Some? ==> forall j: nat :: j < IndexOf(s, p).value ==> !OccursAt(s, p, j)
    ensures IndexOf(s, p).None? ==> forall j: nat :: !OccursAt(s, p, j)
    decreases |s|
  {
    if |s| >= |p| && s[..|p|] != p {
      IndexOfIsFirst(s[1..], p);
      assert s[0..|p|] == s[..|p|];
      forall j: nat | 1 <= j && OccursAt(s, p, j) ensures OccursAt(s[1..], p, j - 1) {
        assert s[1..][j - 1..j - 1 + |p|] == s[j..j + |p|];
      }
    }
  }

  /** `String.prototype.includes`. */
  predicate Contains(s: string, p: string) {
    IndexOf(s, p).Some?
  }

  lemma ContainsAt(s: string, p: string, i: nat)
    requires OccursAt(s, p, i)
    ensures Contains(s, p)
  {
    IndexOfIsFirst(s, p);
  }

  /** For a one-character pattern, `includes` is membership. */
  lemma ContainsChar(s: string, c: char)
    ensures Contains(s, [c]) <==> c in s
  {
    if c in s {
      var i :| 0 <= i < |s| && s[i] == c;
      assert s[i..i + 1] == [c];
      ContainsAt(s, [c], i);
    }
    if Contains(s, [c]) {
      var i := IndexOf(s, [c]).value;
      assert s[i..i + 1][0] == s[i];
    }
  }

  /** `String.prototype.startsWith`. */
  predicate StartsWith(s: string, p: string) {
    |p| <= |s| && s[..|p|] == p
  }

  /**
    * `String.prototype.split` with a non-empty string separator: the pieces between
    * the non-overlapping occurrences of `sep`, scanned from the left.
    */
  function Split(s: string, sep: string): (parts: seq<string>)
    requires sep != []
    ensures |parts| >= 1
    ensures Contains(s, sep) <==> |parts| >= 2
    decreases |s|
  {
    match IndexOf(s, sep)
    case None => [s]
    case Some(i) => [s[..i]] + Split(s[i + |sep|..], sep)
  }

  /** The text before the first occurrence of `p` does not contain `p`. */
  lemma BeforeFirstOccurrence(s: string, p: string)
    requires p != [] && IndexOf(s, p).Some?
    ensures !Contains(s[..IndexOf(s, p).value], p)
  {
    var i := IndexOf(s, p).value;
    IndexOfIsFirst(s, p);
    forall j: nat | OccursAt(s[..i], p, j) ensures false {
      assert s[..i][j..j + |p|] == s[j..j + |p|];
      assert OccursAt(s, p, j);
    }
  }

  /** Split's partner: no piece contains the separator, and joining the pieces gives the input back. */
  lemma {:induction false} SplitJoin(s: string, sep: string)
    requires sep != []
    ensures forall k :: 0 <= k < |Split(s, sep)| ==> !Contains(Split(s, sep)[k], sep)
    ensures Join(Split(s, sep), sep) == s
    decreases |s|
  {
    match IndexOf(s, sep)
    case None =>
    case Some(i) =>
      var head, tail := s[..i], s[i + |sep|..];
      SplitJoin(tail, sep);
      var rest := Split(tail, sep);
      BeforeFirstOccurrence(s, sep);
      assert ([head] + rest)[1..] == rest;
      assert s == head + sep + tail;
  }

  /** Reassembles split pieces with the separator between them (`Array.prototype.join`). */
  function Join(parts: seq<string>, sep: string): string
    requires |parts| >= 1
  {
    if |parts| == 1 then parts[0] else parts[0] + sep + Join(parts[1..], sep)
  }

  /** When the separator's first occurrence follows `a`, the first piece is `a`. */
  lemma SplitAtFirst(a: string, sep: string, b: string)
    requires sep != [] && IndexOf(a + sep + b, sep) == Some(|a|)
    ensures Split(a + sep + b, sep) == [a] + Split(b, sep)
  {
    var s := a + sep + b;
    assert s[..|a|] == a;
    assert s[|a| + |sep|..] == b;
  }

  /** A first occurrence found in a prefix is still the first occurrence in the whole. */
  lemma IndexOfExtend(a: string, p: string, b: string)
    requires IndexOf(a, p).Some?
    ensures IndexOf(a + b, p) == IndexOf(a, p)
  {
    var i := IndexOf(a, p).value;
    IndexOfIsFirst(a, p);
    IndexOfIsFirst(a + b, p);
    OccursInPrefix(a, b, p, i);
    var k := IndexOf(a + b, p).value;
    assert k <= i;
    if k < i {
      OccursInPrefix(a, b, p, k);
    }
  }

  /** An occurrence that ends inside `a` is one in `a + b`, and conversely. */
  lemma OccursInPrefix(a: string, b: string, p: string, j: nat)
    requires j + |p| <= |a|
    ensures OccursAt(a + b, p, j) <==> OccursAt(a, p, j)
  {
    assert (a + b)[j..j + |p|] == a[j..j + |p|];
  }

  /** A one-character separator not in `a` first occurs right after `a`. */
  lemma IndexOfCharAfter(a: string, c: char, b: string)
    requires c !in a
    ensures IndexOf(a + [c] + b, [c]) == Some(|a|)
  {
    var s := a + [c];
    assert s[|a|..|a| + 1] == [c];
    assert OccursAt(s, [c], |a|);
    IndexOfIsFirst(s, [c]);
    var k := IndexOf(s, [c]).value;
    forall j: nat | j < |a| ensures !OccursAt(s, [c], j) {
      assert s[j..j + 1] == [a[j]];
    }
    assert k == |a|;
    IndexOfExtend(s, [c], b);
  }

  /** Splitting on a character: a first piece free of that character, then the rest. */
  lemma SplitCharCons(a: string, c: char, b: string)
    requires c !in a
    ensures Split(a + [c] + b, [c]) == [a] + Split(b, [c])
  {
    IndexOfCharAfter(a, c, b);
    SplitAtFirst(a, [c], b);
  }

  /** A string without the separator is one piece. */
  lemma SplitCharNone(a: string, c: char)
    requires c !in a
    ensures Split(a, [c]) == [a]
  {
    ContainsChar(a, c);
  }

  /** `String.prototype.replace` with a string pattern: only the first occurrence is replaced. */
  function ReplaceFirst(s: string, pat: string, replacement: string): (r: string)
    ensures !Contains(s, pat) ==> r == s
    ensures StartsWith(s, pat) ==> r == replacement + s[|pat|..]
  {
    match IndexOf(s, pat)
    case None => s
    case Some(i) =>
      IndexOfIsFirst(s, pat);
      assert StartsWith(s, pat) ==> OccursAt(s, pat, 0) && i == 0;
      s[..i] + replacement + s[i + |pat|..]
  }

  /** Number of occurrences of a character. */
  function Count(c: char, s: string): nat
    decreases |s|
  {
    if s == [] then 0 else (if s[0] == c then 1 else 0) + Count(c, s[1..])
  }

  lemma {:induction false} CountConcat(c: char, a: string, b: string)
    ensures Count(c, a + b) == Count(c, a) + Count(c, b)
    decreases |a|
  {
    if a == [] {
      assert a + b == b;
    } else {
      assert (a + b)[1..] == a[1..] + b;
      CountConcat(c, a[1..], b);
    }
  }

  lemma {:induction false} CountAbsent(c: char, s: string)
    requires c !in s
    ensures Count(c, s) == 0
    decreases |s|
  {
    if s != [] {
      CountAbsent(c, s[1..]);
    }
  }

  /** Splitting on a character yields one more piece than there are occurrences of it. */
  lemma {:induction false} SplitCharCount(s: string, c: char)
    ensures |Split(s, [c])| == Count(c, s) + 1
    decreases |s|
  {
    ContainsChar(s, c);
    if c in s {
      var i := IndexOf(s, [c]).value;
      IndexOfIsFirst(s, [c]);
      var a, b := s[..i], s[i + 1..];
      assert s[i..i + 1] == [c];
      assert s == a + [c] + b;
      assert c !in a by {
        forall j | 0 <= j < i ensures s[j] != c {
          assert s[j..j + 1] == [s[j]];
          assert !OccursAt(s, [c], j);
        }
      }
      SplitCharCons(a, c, b);
      SplitCharCount(b, c);
      CountConcat(c, a + [c], b);
      CountConcat(c, a, [c]);
      CountAbsent(c, a);
    } else {
      SplitCharNone(s, c);
      CountAbsent(c, s);
    }
  }

  /** The pieces `fs` joined by a character and followed by nothing or a new piece split back into `fs`. */
  lemma {:induction false} SplitCharFields(fs: seq<string>, c: char, rest: string)
    requires |fs| >= 1 && forall k :: 0 <= k < |fs| ==> c !in fs[k]
    requires rest == [] || rest[0] == c
    ensures |Split(Join(fs, [c]) + rest, [c])| >= |fs|
    ensures Split(Join(fs, [c]) + rest, [c])[..|fs|] == fs
    decreases |fs|
  {
    if |fs| == 1 {
      SplitCharLast(fs[0], c, rest);
    } else {
      var tail := Join(fs[1..], [c]) + rest;
      JoinCons(fs, [c], rest);
      SplitCharCons(fs[0], c, tail);
      SplitCharFields(fs[1..], c, rest);
      var r := Split(tail, [c]);
      assert ([fs[0]] + r)[..|fs|] == [fs[0]] + r[..|fs| - 1];
      assert fs == [fs[0]] + fs[1..];
    }
  }

  lemma JoinCons(fs: seq<string>, sep: string, rest: string)
    requires |fs| >= 2
    ensures Join(fs, sep) + rest == fs[0] + sep + (Join(fs[1..], sep) + rest)
  {
  }

  lemma SplitCharLast(f: string, c: char, rest: string)
    requires c !in f && (rest == [] || rest[0] == c)
    ensures Split(f + rest, [c])[..1] == [f]
  {
    if rest == [] {
      SplitCharNone(f, c);
      assert f + rest == f;
    } else {
      assert f + rest == f + [c] + rest[1..];
      SplitCharCons(f, c, rest[1..]);
    }
  }
}
