/**
 * The few `java.lang.String` operations the service classes use, stated on
 * `seq<char>`: trim, prefix and suffix tests, indexOf with a start index,
 * contains, removing one character, split on a one-character separator
 * (with Java's dropping of trailing empty fields), joining, and the decimal
 * text of an integer.
 */
module Text {

  /** `String.trim` removes every leading and trailing character up to U+0020. */
  predicate IsTrimmable(c: char)
  {
    c <= ' '
  }

  function TrimStart(s: string): (r: string)
    ensures |r| <= |s| && r == s[|s| - |r|..]
    ensures r == [] || !IsTrimmable(r[0])
    ensures forall i :: 0 <= i < |s| - |r| ==> IsTrimmable(s[i])
  {
    if s != [] && IsTrimmable(s[0]) then TrimStart(s[1..]) else s
  }

  function TrimEnd(s: string): (r: string)
    ensures |r| <= |s| && r == s[..|r|]
    ensures r == [] || !IsTrimmable(r[|r| - 1])
    ensures forall i :: |r| <= i < |s| ==> IsTrimmable(s[i])
  {
    if s != [] && IsTrimmable(s[|s| - 1]) then TrimEnd(s[..|s| - 1]) else s
  }

  /** `String.trim`: neither end of the result is trimmable. */
  function Trim(s: string): (r: string)
    ensures |r| <= |s|
    ensures r == [] || (!IsTrimmable(r[0]) && !IsTrimmable(r[|r| - 1]))
  {
    TrimEnd(TrimStart(s))
  }

  /** The result of trimming is a contiguous part of the text, and everything cut off is trimmable. */
  lemma TrimRule(s: string)
    ensures exists k :: TrimmedAt(s, Trim(s), k)
  {
    var t := TrimStart(s);
    assert TrimmedAt(s, Trim(s), |s| - |t|);
  }

  /** `r` is the part of `s` from `k` on, with only trimmable characters cut off on either side. */
  ghost predicate TrimmedAt(s: string, r: string, k: int)
  {
    && 0 <= k <= |s| - |r|
    && r == s[k..k + |r|]
    && (forall i :: 0 <= i < k ==> IsTrimmable(s[i]))
    && (forall i :: k + |r| <= i < |s| ==> IsTrimmable(s[i]))
  }

  /** A text with no trimmable character at either end: what `trim` gives back unchanged. */
  predicate Untrimmed(s: string)
  {
    s == [] || (!IsTrimmable(s[0]) && !IsTrimmable(s[|s| - 1]))
  }

  lemma TrimUntrimmed(s: string)
    requires Untrimmed(s)
    ensures Trim(s) == s
  {
    assert TrimStart(s) == s;
    assert TrimEnd(s) == s;
  }

  /** Trimming is idempotent. */
  lemma TrimTwice(s: string)
    ensures Trim(Trim(s)) == Trim(s)
  {
    var r := Trim(s);
    assert TrimStart(r) == r;
    assert TrimEnd(r) == r;
  }

  predicate StartsWith(s: string, p: string)
  {
    |p| <= |s| && s[..|p|] == p
  }

  predicate EndsWith(s: string, p: string)
  {
    |p| <= |s| && s[|s| - |p|..] == p
  }

  /** `pat` occurs in `s` starting at index `i`. */
  predicate OccursAt(s: string, pat: string, i: int)
  {
    0 <= i && i + |pat| <= |s| && s[i..i + |pat|] == pat
  }

  /**
   * `s.indexOf(pat, from)` for a non-empty `pat`: the first index at or after
   * `from` where `pat` occurs, or -1 when there is none.
   */
  function IndexOf(s: string, pat: string, from: nat): (r: int)
    requires |pat| > 0
    ensures r == -1 || (from <= r && OccursAt(s, pat, r))
    ensures r == -1 ==> forall i :: from <= i ==> !OccursAt(s, pat, i)
    ensures r >= 0 ==> forall i :: from <= i < r ==> !OccursAt(s, pat, i)
    decreases |s| - from
  {
    if from + |pat| > |s| then -1
    else if s[from..from + |pat|] == pat then from
    else IndexOf(s, pat, from + 1)
  }

  /** A text ends with an occurrence of what was appended last. */
  lemma OccursAtEnd(x: string, pat: string)
    ensures OccursAt(x + pat, pat, |x|)
  {
    assert (x + pat)[|x|..|x| + |pat|] == pat;
  }

  /** An occurrence stays where it is when text is appended. */
  lemma OccursExtend(s: string, t: string, pat: string, i: int)
    requires OccursAt(s, pat, i)
    ensures OccursAt(s + t, pat, i)
  {
    assert (s + t)[i..i + |pat|] == s[i..i + |pat|];
  }

  /** An occurrence at `i` with none between `from` and `i` is what `indexOf` finds. */
  lemma IndexOfFirst(s: string, pat: string, from: nat, i: nat)
    requires |pat| > 0 && from <= i && OccursAt(s, pat, i)
    requires forall j :: from <= j < i ==> !OccursAt(s, pat, j)
    ensures IndexOf(s, pat, from) == i
  {
  }

  /** `s.contains(pat)`. */
  predicate Contains(s: string, pat: string)
    requires |pat| > 0
  {
    IndexOf(s, pat, 0) >= 0
  }

  lemma ContainsIff(s: string, pat: string)
    requires |pat| > 0
    ensures Contains(s, pat) <==> exists i :: OccursAt(s, pat, i)
  {
    if !Contains(s, pat) {
      assert forall i :: 0 <= i ==> !OccursAt(s, pat, i);
    }
  }

  /** `s.replaceAll(String.valueOf(c), "")` for a character that is not a regular-expression metacharacter. */
  function RemoveChar(s: string, c: char): (r: string)
    ensures c !in r
    ensures |r| <= |s|
    ensures c !in s ==> r == s
  {
    if s == [] then []
    else if s[0] == c then RemoveChar(s[1..], c)
    else [s[0]] + RemoveChar(s[1..], c)
  }

  /** Every field between separators, empty ones included: the list `split` starts from. */
  function SplitAll(s: string, c: char): (r: seq<string>)
    ensures |r| >= 1
    ensures forall j :: 0 <= j < |r| ==> c !in r[j]
    ensures c !in s ==> r == [s]
  {
    if s == [] then [[]]
    else
      var rest := SplitAll(s[1..], c);
      if s[0] == c then [[]] + rest
      else
        assert s == [s[0]] + s[1..];
        [[s[0]] + rest[0]] + rest[1..]
  }

  /** Joins fields with a separator character. */
  function Join(xs: seq<string>, c: char): string
  {
    if xs == [] then []
    else if |xs| == 1 then xs[0]
    else xs[0] + [c] + Join(xs[1..], c)
  }

  /** Splitting and joining again gives back the text. */
  lemma {:induction false} JoinSplitAll(s: string, c: char)
    ensures Join(SplitAll(s, c), c) == s
  {
    if s != [] {
      var rest := SplitAll(s[1..], c);
      JoinSplitAll(s[1..], c);
      if s[0] == c {
        JoinEmptyFirst(rest, c);
      } else {
        JoinConsFirst(s[0], rest, c);
      }
      assert s == [s[0]] + s[1..];
    }
  }

  /** An empty first field is a separator in front of the rest. */
  lemma JoinEmptyFirst(rest: seq<string>, c: char)
    requires |rest| >= 1
    ensures Join([[]] + rest, c) == [c] + Join(rest, c)
  {
    assert ([[]] + rest)[1..] == rest;
  }

  /** A character put in front of the first field is put in front of the joined text. */
  lemma JoinConsFirst(ch: char, rest: seq<string>, c: char)
    requires |rest| >= 1
    ensures Join([[ch] + rest[0]] + rest[1..], c) == [ch] + Join(rest, c)
  {
    var xs := [[ch] + rest[0]] + rest[1..];
    assert xs[1..] == rest[1..];
    if |rest| > 1 {
      assert Join(rest, c) == rest[0] + [c] + Join(rest[1..], c);
    }
  }

  /** A field free of the separator followed by the separator splits off as the first field. */
  lemma {:induction false} SplitAllField(a: string, c: char, b: string)
    requires c !in a
    ensures SplitAll(a + [c] + b, c) == [a] + SplitAll(b, c)
  {
    if a == [] {
      assert a + [c] + b == [c] + b;
      assert ([c] + b)[1..] == b;
    } else {
      assert (a + [c] + b)[1..] == a[1..] + [c] + b;
      SplitAllField(a[1..], c, b);
      assert [a[0]] + a[1..] == a;
    }
  }

  /** Conversely, joining fields free of the separator and splitting again gives back the fields. */
  lemma {:induction false} SplitAllJoin(xs: seq<string>, c: char)
    requires |xs| >= 1
    requires forall j :: 0 <= j < |xs| ==> c !in xs[j]
    ensures SplitAll(Join(xs, c), c) == xs
  {
    if |xs| > 1 {
      SplitAllJoin(xs[1..], c);
      SplitAllField(xs[0], c, Join(xs[1..], c));
    }
  }

  /** Appending a field to a joined list adds one separator and the field. */
  lemma {:induction false} JoinAppend(xs: seq<string>, x: string, c: char)
    ensures Join(xs + [x], c) == if xs == [] then x else Join(xs, c) + [c] + x
  {
    if |xs| > 1 {
      assert (xs + [x])[1..] == xs[1..] + [x];
      JoinAppend(xs[1..], x, c);
    } else if |xs| == 1 {
      assert (xs + [x])[1..] == [x];
    }
  }

  /** Drops the empty fields at the end of a field list. */
  function DropTrailingEmpty(xs: seq<string>): (r: seq<string>)
    ensures |r| <= |xs| && r == xs[..|r|]
    ensures r == [] || r[|r| - 1] != []
    ensures forall j :: |r| <= j < |xs| ==> xs[j] == []
  {
    if xs != [] && xs[|xs| - 1] == [] then DropTrailingEmpty(xs[..|xs| - 1]) else xs
  }

  /**
   * `s.split(String.valueOf(c))` for a character that is not a regular-expression
   * metacharacter: no separator gives the text itself as the one field;
   * otherwise all fields, with trailing empty fields removed.
   */
  function JavaSplit(s: string, c: char): (r: seq<string>)
    ensures c !in s ==> r == [s]
    ensures forall j :: 0 <= j < |r| ==> c !in r[j]
  {
    if c !in s then [s] else DropTrailingEmpty(SplitAll(s, c))
  }

  /**
   * Java's split of fields joined by `c` gives back the fields, when there are
   * at least two, none holds `c` and the last is not empty.
   */
  lemma JavaSplitJoin(xs: seq<string>, c: char)
    requires |xs| >= 2
    requires forall j :: 0 <= j < |xs| ==> c !in xs[j]
    requires xs[|xs| - 1] != []
    ensures JavaSplit(Join(xs, c), c) == xs
  {
    var joined := Join(xs, c);
    assert joined == xs[0] + [c] + Join(xs[1..], c);
    assert joined[|xs[0]|] == c;
    SplitAllJoin(xs, c);
  }

  /** Decimal digits of a natural number. */
  function NatToString(n: nat): (r: string)
    ensures |r| >= 1
    ensures forall j :: 0 <= j < |r| ==> '0' <= r[j] <= '9'
    decreases n
  {
    var d := [(('0' as int) + n % 10) as char];
    if n < 10 then d else NatToString(n / 10) + d
  }

  /** `Long.toString`: decimal digits with a leading `-` for a negative number. */
  function IntToString(n: int): (r: string)
    ensures |r| >= 1
    ensures forall j :: 0 <= j < |r| ==> r[j] == '-' || '0' <= r[j] <= '9'
  {
    if n < 0 then "-" + NatToString(-n) else NatToString(n)
  }
}
