/** The string operations of Python that the debate engine and its web front
    end rely on: `"\n".join(...)`, slicing `s[:n]`, `str.strip()`,
    `str.replace(...)`, `str.lower()` / `str.upper()` and f-string
    interpolation of integers. Python strings are sequences of code points,
    as Dafny's `string` is. */
module Text {

  /** `part` occurs in `s` as a contiguous run of characters. */
  ghost predicate Contains(s: string, part: string) {
    exists k :: 0 <= k <= |s| && part <= s[k..]
  }

  lemma ContainsPrefix(s: string, part: string)
    requires part <= s
    ensures Contains(s, part)
  {
    assert s[0..] == s;
  }

  /** An occurrence in `a` is still an occurrence once `a` is extended. */
  lemma ContainsExtended(a: string, b: string, part: string)
    requires Contains(a, part) && a <= b
    ensures Contains(b, part)
  {
    var k :| 0 <= k <= |a| && part <= a[k..];
    assert a[k..] <= b[k..];
  }

  /** An occurrence in `b` is still an occurrence behind any prefix `a`. */
  lemma ContainsShifted(a: string, b: string, part: string)
    requires Contains(b, part)
    ensures Contains(a + b, part)
  {
    var k :| 0 <= k <= |b| && part <= b[k..];
    assert (a + b)[|a| + k..] == b[k..];
  }

  /** An occurrence of `part` inside an occurrence of `middle` is an
      occurrence of `part`. */
  lemma ContainsTransitive(s: string, middle: string, part: string)
    requires Contains(s, middle) && Contains(middle, part)
    ensures Contains(s, part)
  {
    var k :| 0 <= k <= |s| && middle <= s[k..];
    var j :| 0 <= j <= |middle| && part <= middle[j..];
    assert k + j + |part| <= |s|;
    forall t | 0 <= t < |part|
      ensures part[t] == s[k + j + t]
    {
      assert part[t] == middle[j + t];
    }
    assert part <= s[k + j..];
  }

  /** Concatenation of a list of pieces: the shape of an f-string. */
  function Flatten(pieces: seq<string>): string
  {
    if pieces == [] then "" else pieces[0] + Flatten(pieces[1..])
  }

  /** Every interpolated piece of an f-string occurs in the result. */
  lemma {:induction false} FlattenContains(pieces: seq<string>, i: nat)
    requires i < |pieces|
    ensures Contains(Flatten(pieces), pieces[i])
  {
    if i == 0 {
      ContainsPrefix(Flatten(pieces), pieces[0]);
    } else {
      FlattenContains(pieces[1..], i - 1);
      ContainsShifted(pieces[0], Flatten(pieces[1..]), pieces[i]);
    }
  }

  /** Python's `"\n".join(parts)`: the parts with one line break between
      each two neighbours. */
  function Join(parts: seq<string>): string
  {
    if |parts| == 0 then ""
    else if |parts| == 1 then parts[0]
    else Join(parts[..|parts| - 1]) + "\n" + parts[|parts| - 1]
  }

  /** Appending one more part adds a newline and that part at the end. */
  lemma JoinSnoc(parts: seq<string>, t: string)
    ensures Join(parts + [t]) == if parts == [] then t else Join(parts) + "\n" + t
  {
    assert (parts + [t])[..|parts|] == parts;
  }

  /** No parts join to the empty text; otherwise the text starts with the
      first part and ends with the last. */
  lemma {:induction false} JoinEnds(parts: seq<string>)
    ensures parts == [] ==> Join(parts) == ""
    ensures parts != [] ==> parts[0] <= Join(parts)
    ensures parts != [] ==> var last, r := parts[|parts| - 1], Join(parts);
      |last| <= |r| && r[|r| - |last|..] == last
  {
    if |parts| > 1 {
      var init := parts[..|parts| - 1];
      JoinEnds(init);
      assert init[0] == parts[0];
    }
  }

  /** Appending a part never changes what was already joined. */
  lemma JoinExtends(parts: seq<string>, t: string)
    ensures Join(parts) <= Join(parts + [t])
  {
    JoinSnoc(parts, t);
  }

  /** The join of any leading run of parts is a prefix of the join of all. */
  lemma {:induction false} JoinPrefix(parts: seq<string>, k: nat)
    requires k <= |parts|
    ensures Join(parts[..k]) <= Join(parts)
  {
    if k < |parts| {
      var init := parts[..|parts| - 1];
      assert init[..k] == parts[..k];
      assert init + [parts[|parts| - 1]] == parts;
      JoinPrefix(init, k);
      JoinExtends(init, parts[|parts| - 1]);
    } else {
      assert parts[..k] == parts;
    }
  }

  /** Every part occurs in the joined text. */
  lemma {:induction false} JoinContains(parts: seq<string>, i: nat)
    requires i < |parts|
    ensures Contains(Join(parts), parts[i])
  {
    var n := |parts|;
    if n == 1 {
      ContainsPrefix(Join(parts), parts[0]);
    } else {
      var init := parts[..n - 1];
      assert init + [parts[n - 1]] == parts;
      JoinSnoc(init, parts[n - 1]);
      if i == n - 1 {
        ContainsPrefix(parts[n - 1], parts[n - 1]);
        ContainsShifted(Join(init) + "\n", parts[n - 1], parts[i]);
      } else {
        JoinContains(init, i);
        ContainsExtended(Join(init), Join(parts), parts[i]);
      }
    }
  }

  /** Python's `s[:n]` for a non-negative `n`. */
  function Truncate(s: string, n: nat): (r: string)
    ensures r <= s
    ensures |r| == if |s| < n then |s| else n
  {
    if |s| <= n then s else s[..n]
  }

  /** `c * n`, a run of `n` copies of one character. */
  function Repeat(c: char, n: nat): string
  {
    seq(n, _ => c)
  }

  /** The characters for which Python's `str.isspace()` holds. */
  predicate IsSpace(c: char)
  {
    ('\t' <= c <= '\r') || ('\U{1C}' <= c <= ' ') || c == '\U{85}' || c == '\U{A0}'
    || c == '\U{1680}' || ('\U{2000}' <= c <= '\U{200A}') || c == '\U{2028}' || c == '\U{2029}'
    || c == '\U{202F}' || c == '\U{205F}' || c == '\U{3000}'
  }

  /** Every character of `x` is whitespace. */
  predicate AllSpace(x: string)
  {
    forall k :: 0 <= k < |x| ==> IsSpace(x[k])
  }

  /** Drops leading whitespace: the result is a suffix of `s`, everything
      dropped is whitespace, and the result does not start with whitespace. */
  function TrimStart(s: string): (r: string)
    ensures |r| <= |s| && r == s[|s| - |r|..]
    ensures AllSpace(s[..|s| - |r|])
    ensures r == [] || !IsSpace(r[0])
  {
    if s != [] && IsSpace(s[0]) then TrimStart(s[1..]) else s
  }

  /** Drops trailing whitespace: the result is a prefix of `s`, everything
      dropped is whitespace, and the result does not end with whitespace. */
  function TrimEnd(s: string): (r: string)
    ensures r <= s
    ensures AllSpace(s[|r|..])
    ensures r == [] || !IsSpace(r[|r| - 1])
  {
    if s != [] && IsSpace(s[|s| - 1]) then TrimEnd(s[..|s| - 1]) else s
  }

  /** Python's `str.strip()` with no argument: the result is the slice of
      `s` left once the whitespace at both ends is dropped, and nothing else. */
  function Strip(s: string): (r: string)
    ensures |r| <= |s|
    ensures r == [] || (!IsSpace(r[0]) && !IsSpace(r[|r| - 1]))
    ensures exists i, j :: 0 <= i <= j <= |s| && r == s[i..j] && AllSpace(s[..i]) && AllSpace(s[j..])
    ensures Contains(s, r)
  {
    var t := TrimStart(s);
    var r := TrimEnd(t);
    StripSlice(s, t, r);
    r
  }

  /** A prefix `r` of a suffix `t` of `s`, with only whitespace dropped on
      either side, is a slice of `s` with only whitespace outside it. */
  lemma StripSlice(s: string, t: string, r: string)
    requires |t| <= |s| && t == s[|s| - |t|..] && AllSpace(s[..|s| - |t|])
    requires r <= t && AllSpace(t[|r|..])
    ensures |r| <= |s|
    ensures exists i, j :: 0 <= i <= j <= |s| && r == s[i..j] && AllSpace(s[..i]) && AllSpace(s[j..])
    ensures Contains(s, r)
  {
    var i := |s| - |t|;
    var j := i + |r|;
    assert r == s[i..j] by {
      assert t[..|r|] == r;
    }
    assert s[j..] == t[|r|..];
    assert r <= s[i..];
  }

  /** Python's `s.replace(pat, rep)`: occurrences of `pat` are replaced
      left to right without overlapping. Replacing a pattern by itself
      leaves the text as it was. */
  function ReplaceAll(s: string, pat: string, rep: string): (r: string)
    requires pat != []
    ensures rep == pat ==> r == s
    decreases |s|
  {
    if |s| < |pat| then s
    else if pat <= s then rep + ReplaceAll(s[|pat|..], pat, rep)
    else [s[0]] + ReplaceAll(s[1..], pat, rep)
  }

  /** No occurrence of `pat` starts before index `n` of `s`. */
  predicate NoMatchBefore(s: string, pat: string, n: nat)
  {
    forall k :: 0 <= k < n && k <= |s| ==> !(pat <= s[k..])
  }

  /** Dropping the first character of `s` moves every earlier position one
      to the left. */
  lemma NoMatchShift(s: string, pat: string, n: nat)
    requires 0 < n && s != [] && NoMatchBefore(s, pat, n)
    ensures NoMatchBefore(s[1..], pat, n - 1)
  {
    forall k | 0 <= k < n - 1 && k <= |s[1..]|
      ensures !(pat <= s[1..][k..])
    {
      assert s[1..][k..] == s[k + 1..];
    }
  }

  /** The first occurrence of the pattern is replaced, the text before it
      is kept, and the replacement goes on after it. Together with
      `ReplaceAllAbsent` this determines the result on every text. */
  lemma {:induction false} ReplaceAllFirst(a: string, b: string, pat: string, rep: string)
    requires pat != [] && NoMatchBefore(a + pat + b, pat, |a|)
    ensures ReplaceAll(a + pat + b, pat, rep) == a + rep + ReplaceAll(b, pat, rep)
    decreases |a|
  {
    var s := a + pat + b;
    if a == [] {
      assert s == pat + b && s[|pat|..] == b;
    } else {
      assert s[0..] == s;
      assert s[1..] == a[1..] + pat + b;
      NoMatchShift(s, pat, |a|);
      ReplaceAllFirst(a[1..], b, pat, rep);
      assert ReplaceAll(s, pat, rep) == [s[0]] + ReplaceAll(s[1..], pat, rep);
      assert a == [a[0]] + a[1..];
    }
  }

  /** A text in which the pattern does not occur comes back unchanged. */
  lemma {:induction false} ReplaceAllAbsent(s: string, pat: string, rep: string)
    requires pat != [] && !Contains(s, pat)
    ensures ReplaceAll(s, pat, rep) == s
    decreases |s|
  {
    if |s| >= |pat| {
      assert s[0..] == s;
      ReplaceAllAbsent(s[1..], pat, rep);
    }
  }

  function LowerChar(c: char): char
  {
    if 'A' <= c <= 'Z' then (c as int + 32) as char else c
  }

  function UpperChar(c: char): char
  {
    if 'a' <= c <= 'z' then (c as int - 32) as char else c
  }

  /** `str.lower()` on ASCII letters. */
  function Lower(s: string): string
  {
    seq(|s|, i requires 0 <= i < |s| => LowerChar(s[i]))
  }

  /** `str.upper()` on ASCII letters. */
  function Upper(s: string): string
  {
    seq(|s|, i requires 0 <= i < |s| => UpperChar(s[i]))
  }

  function NatToString(n: nat): string
    decreases n
  {
    var d := "0123456789"[n % 10];
    if n < 10 then [d] else NatToString(n / 10) + [d]
  }

  /** `str(i)` for an integer `i`. */
  function IntToString(i: int): string
  {
    if i < 0 then "-" + NatToString(-i) else NatToString(i)
  }
}
