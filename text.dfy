/**
 * The JavaScript string operations the routes and pages rely on, over
 * `seq<char>`: `trim`, `toLowerCase`, `includes`, `indexOf`, `replace` of the
 * first occurrence, and the `split(sep).pop()` / `split(sep)[0]` idioms.
 * Whitespace is the ASCII subset of JavaScript's white space and line
 * terminators, and case mapping is ASCII only.
 */
module Text {

  import opened Common

  predicate IsSpace(c: char) {
    c == ' ' || c == '\t' || c == '\n' || c == '\r' || c == '\U{0B}' || c == '\U{0C}'
  }

  predicate AllSpace(s: string) {
    forall i :: 0 <= i < |s| ==> IsSpace(s[i])
  }

  /** `s.trimStart()`: the longest suffix of `s` that does not start with white space. */
  function TrimStart(s: string): (r: string)
    ensures |r| <= |s| && r == s[|s| - |r|..]
    ensures AllSpace(s[..|s| - |r|])
    ensures r != [] ==> !IsSpace(r[0])
  {
    if |s| > 0 && IsSpace(s[0]) then TrimStart(s[1..]) else s
  }

  /** `s.trimEnd()`: the longest prefix of `s` that does not end with white space. */
  function TrimEnd(s: string): (r: string)
    ensures |r| <= |s| && r == s[..|r|]
    ensures AllSpace(s[|r|..])
    ensures r != [] ==> !IsSpace(r[|r| - 1])
  {
    if |s| > 0 && IsSpace(s[|s| - 1]) then TrimEnd(s[..|s| - 1]) else s
  }

  /** `s.trim()`. */
  function Trim(s: string): (r: string)
    ensures r != [] ==> !IsSpace(r[0]) && !IsSpace(r[|r| - 1])
  {
    TrimEnd(TrimStart(s))
  }

  /** Trimming keeps a contiguous piece of `s` and drops only white space around it. */
  lemma TrimIsInnerSlice(s: string)
    ensures exists i, j :: 0 <= i <= j <= |s| && Trim(s) == s[i..j]
              && AllSpace(s[..i]) && AllSpace(s[j..])
  {
    var t := TrimStart(s);
    var i := |s| - |t|;
    var j := i + |TrimEnd(t)|;
    assert Trim(s) == s[i..j];
    assert s[j..] == t[|TrimEnd(t)|..];
  }

  /** `!s.trim()` holds exactly for the strings made of white space only. */
  lemma {:induction false} TrimEmptyIff(s: string)
    ensures Trim(s) == "" <==> AllSpace(s)
  {
    var t := TrimStart(s);
    if t != [] {
      assert !IsSpace(t[0]) && t[0] == s[|s| - |t|];
      assert t[0..] == t;
    }
  }

  lemma {:induction false} TrimStartOfTrimmed(s: string)
    requires s == [] || !IsSpace(s[0])
    ensures TrimStart(s) == s
  {
  }

  lemma {:induction false} TrimEndOfTrimmed(s: string)
    requires s == [] || !IsSpace(s[|s| - 1])
    ensures TrimEnd(s) == s
  {
  }

  /** The routes trim twice (`checkTitleExists(title.trim())` trims again): a no-op. */
  lemma TrimIdempotent(s: string)
    ensures Trim(Trim(s)) == Trim(s)
  {
    var r := Trim(s);
    TrimStartOfTrimmed(r);
    TrimEndOfTrimmed(r);
  }

  // ---------------------------------------------------------------- searching

  predicate OccursAt(s: string, pat: string, i: int) {
    0 <= i && i + |pat| <= |s| && s[i..i + |pat|] == pat
  }

  /** The first index at or after `from` where `pat` occurs, if any. */
  function FindFrom(s: string, pat: string, from: nat): (r: Option<nat>)
    decreases |s| - from
    ensures r.Some? ==> from <= r.value && OccursAt(s, pat, r.value)
    ensures r.Some? ==> forall k :: from <= k < r.value ==> !OccursAt(s, pat, k)
    ensures r.None? ==> forall k :: from <= k ==> !OccursAt(s, pat, k)
  {
    if from + |pat| > |s| then None
    else if s[from..from + |pat|] == pat then Some(from)
    else FindFrom(s, pat, from + 1)
  }

  /** `s.indexOf(pat)`, with `None` for -1. */
  function IndexOf(s: string, pat: string): (r: Option<nat>)
    ensures r.Some? ==> OccursAt(s, pat, r.value) && forall k :: 0 <= k < r.value ==> !OccursAt(s, pat, k)
    ensures r.None? ==> forall k :: !OccursAt(s, pat, k)
  {
    FindFrom(s, pat, 0)
  }

  /** `s.includes(pat)`. */
  predicate Contains(s: string, pat: string) {
    IndexOf(s, pat).Some?
  }

  lemma ContainsIff(s: string, pat: string)
    ensures Contains(s, pat) <==> exists k :: OccursAt(s, pat, k)
  {
    if Contains(s, pat) {
      assert OccursAt(s, pat, IndexOf(s, pat).value);
    }
  }

  lemma OccurrenceShowsContains(s: string, pat: string, k: int)
    requires OccursAt(s, pat, k)
    ensures Contains(s, pat)
  {
  }

  lemma OccursInPrefix(a: string, b: string, pat: string, k: int)
    requires OccursAt(a, pat, k)
    ensures OccursAt(a + b, pat, k)
  {
    assert (a + b)[k..k + |pat|] == a[k..k + |pat|];
  }

  /** A string none of whose characters is the first character of `pat` does not contain it. */
  lemma AbsentHeadShowsNotContains(s: string, pat: string)
    requires pat != []
    requires forall i :: 0 <= i < |s| ==> s[i] != pat[0]
    ensures !Contains(s, pat)
  {
    forall k | 0 <= k && k + |pat| <= |s| ensures !OccursAt(s, pat, k) {
      assert s[k..k + |pat|][0] == s[k];
    }
  }

  /** `s.replace(pat, rep)` with a string pattern: only the first occurrence is replaced. */
  function ReplaceFirst(s: string, pat: string, rep: string): (r: string)
    ensures IndexOf(s, pat).None? ==> r == s
    ensures IndexOf(s, pat).Some? ==>
              var i := IndexOf(s, pat).value;
              r == s[..i] + rep + s[i + |pat|..] && |r| == |s| - |pat| + |rep|
  {
    match IndexOf(s, pat)
    case None => s
    case Some(i) => s[..i] + rep + s[i + |pat|..]
  }

  // ---------------------------------------------------------------- case

  function LowerChar(c: char): char {
    if 'A' <= c <= 'Z' then (c as int + 32) as char else c
  }

  /** `s.toLowerCase()` on ASCII letters. */
  function ToLower(s: string): (r: string)
    ensures |r| == |s| && forall i :: 0 <= i < |s| ==> r[i] == LowerChar(s[i])
  {
    seq(|s|, i requires 0 <= i < |s| => LowerChar(s[i]))
  }

  predicate IsLowerCase(s: string) {
    forall i :: 0 <= i < |s| ==> !('A' <= s[i] <= 'Z')
  }

  /** Lower-casing yields lower case, and lower-case text is left as it is. */
  lemma ToLowerFixesLowerCase(s: string)
    ensures IsLowerCase(ToLower(s))
    ensures IsLowerCase(s) ==> ToLower(s) == s
  {
  }

  // ---------------------------------------------------------------- splitting

  /** `s.split(sep).pop()`: the text after the last `sep`, or all of `s`. */
  function LastSegment(s: string, sep: char): (r: string)
    ensures |r| <= |s| && r == s[|s| - |r|..]
    ensures sep !in r
    ensures |r| < |s| ==> s[|s| - |r| - 1] == sep
  {
    if s == [] then []
    else if s[|s| - 1] == sep then []
    else LastSegment(s[..|s| - 1], sep) + [s[|s| - 1]]
  }

  /** `s.split(sep)[0]`: the text before the first `sep`, or all of `s`. */
  function BeforeFirst(s: string, sep: char): (r: string)
    ensures |r| <= |s| && r == s[..|r|]
    ensures sep !in r
    ensures |r| < |s| ==> s[|r|] == sep
  {
    if s == [] then []
    else if s[0] == sep then []
    else [s[0]] + BeforeFirst(s[1..], sep)
  }

  /** The segment after a final separator is recovered exactly. */
  lemma {:induction false} LastSegmentOfJoin(prefix: string, sep: char, tail: string)
    requires sep !in tail
    ensures LastSegment(prefix + [sep] + tail, sep) == tail
  {
    var s := prefix + [sep] + tail;
    if tail != [] {
      var init := tail[..|tail| - 1];
      assert tail[|tail| - 1] in tail;
      assert s[..|s| - 1] == prefix + [sep] + init;
      assert sep !in init by {
        forall i | 0 <= i < |init| ensures init[i] != sep { assert init[i] == tail[i]; }
      }
      LastSegmentOfJoin(prefix, sep, init);
      assert tail == init + [tail[|tail| - 1]];
    }
  }

  /** The text before a separator that does not occur in it is recovered exactly. */
  lemma {:induction false} BeforeFirstOfJoin(head: string, sep: char, rest: string)
    requires sep !in head
    ensures BeforeFirst(head + [sep] + rest, sep) == head
  {
    var s := head + [sep] + rest;
    if head != [] {
      assert head[0] in head;
      assert s[1..] == head[1..] + [sep] + rest;
      assert sep !in head[1..] by {
        forall i | 0 <= i < |head| - 1 ensures head[1..][i] != sep { assert head[1..][i] == head[i + 1]; }
      }
      BeforeFirstOfJoin(head[1..], sep, rest);
      assert head == [head[0]] + head[1..];
    }
  }

  /** A string without the separator is its own first piece. */
  lemma {:induction false} BeforeFirstWithoutSep(s: string, sep: char)
    requires sep !in s
    ensures BeforeFirst(s, sep) == s
  {
    if s != [] {
      assert s[0] in s;
      assert sep !in s[1..] by {
        forall i | 0 <= i < |s| - 1 ensures s[1..][i] != sep { assert s[1..][i] == s[i + 1]; }
      }
      BeforeFirstWithoutSep(s[1..], sep);
      assert s == [s[0]] + s[1..];
    }
  }

  /** Cutting at the first separator passes over a prefix that does not contain it. */
  lemma {:induction false} BeforeFirstSkips(head: string, rest: string, sep: char)
    requires sep !in head
    ensures BeforeFirst(head + rest, sep) == head + BeforeFirst(rest, sep)
  {
    if head != [] {
      var c, t := head[0], head[1..];
      var s := head + rest;
      assert c in head;
      assert s[0] == c && s[1..] == t + rest;
      assert sep !in t by {
        forall i | 0 <= i < |t| ensures t[i] != sep { assert t[i] == head[i + 1]; }
      }
      BeforeFirstSkips(t, rest, sep);
      assert BeforeFirst(s, sep) == [c] + BeforeFirst(t + rest, sep);
      assert head == [c] + t;
      assert [c] + (t + BeforeFirst(rest, sep)) == ([c] + t) + BeforeFirst(rest, sep);
    } else {
      assert head + rest == rest;
    }
  }
}
