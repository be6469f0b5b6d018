/**
 * String operations of Python and JavaScript that the system relies on, each
 * with the property that pins down what it does.
 */
module Text {
  import opened Wrappers

  /** `p` occurs in `s` starting at index `i`. */
  predicate OccursAt(s: string, p: string, i: nat)
  {
    i + |p| <= |s| && s[i..i + |p|] == p
  }

  lemma OccursAfterHead(s: string, p: string)
    requires |s| > 0
    ensures forall j: nat :: j > 0 ==> (OccursAt(s, p, j) <==> OccursAt(s[1..], p, j - 1))
  {
    forall j: nat | j > 0
      ensures OccursAt(s, p, j) <==> OccursAt(s[1..], p, j - 1)
    {
      if j + |p| <= |s| {
        assert s[1..][j - 1..j - 1 + |p|] == s[j..j + |p|];
      }
    }
  }

  /** The first index at which `p` occurs in `s` (JavaScript `indexOf`, Python `find`). */
  function IndexOf(s: string, p: string): (r: Option<nat>)
    ensures r.Some? ==> OccursAt(s, p, r.value)
    ensures r.Some? ==> forall j: nat :: j < r.value ==> !OccursAt(s, p, j)
    ensures r.None? ==> forall j: nat :: !OccursAt(s, p, j)
    decreases |s|
  {
    if |p| > |s| then None
    else if s[..|p|] == p then Some(0)
    else
      OccursAfterHead(s, p);
      assert !OccursAt(s, p, 0);
      match IndexOf(s[1..], p)
      case None => None
      case Some(k) => Some(k + 1)
  }

  /** JavaScript's `includes`, Python's `in` on strings. */
  predicate Contains(s: string, p: string)
  {
    IndexOf(s, p).Some?
  }

  lemma ContainsInfix(a: string, p: string, b: string)
    ensures Contains(a + p + b, p)
  {
    assert (a + p + b)[|a|..|a| + |p|] == p;
    assert OccursAt(a + p + b, p, |a|);
  }

  lemma ContainsExtends(a: string, p: string, b: string)
    requires Contains(a, p)
    ensures Contains(a + b, p)
  {
    var i := IndexOf(a, p).value;
    assert (a + b)[i..i + |p|] == a[i..i + |p|];
    assert OccursAt(a + b, p, i);
  }

  /**
   * JavaScript's `String.prototype.replace` with a string pattern: only the
   * first occurrence of `p` is replaced.
   */
  function ReplaceFirst(s: string, p: string, r: string): (t: string)
    ensures !Contains(s, p) ==> t == s
    ensures Contains(s, p) ==> t == s[..IndexOf(s, p).value] + r + s[IndexOf(s, p).value + |p|..]
  {
    match IndexOf(s, p)
    case None => s
    case Some(i) => s[..i] + r + s[i + |p|..]
  }

  /**
   * Python's `str.replace(p, r)` for a non-empty `p`: a left-to-right scan
   * that replaces each occurrence it meets and resumes after it.
   */
  function ReplaceAll(s: string, p: string, r: string): string
    requires |p| > 0
    decreases |s|
  {
    if |s| < |p| then s
    else if s[..|p|] == p then r + ReplaceAll(s[|p|..], p, r)
    else [s[0]] + ReplaceAll(s[1..], p, r)
  }

  /** Python's `str.split(p)`: the text between the occurrences of `p`. */
  function SplitOn(s: string, p: string): (parts: seq<string>)
    requires |p| > 0
    ensures |parts| >= 1
    decreases |s|
  {
    if |s| < |p| then [s]
    else if s[..|p|] == p then [""] + SplitOn(s[|p|..], p)
    else
      var t := SplitOn(s[1..], p);
      [[s[0]] + t[0]] + t[1..]
  }

  /** Python's `sep.join(parts)`. */
  function Join(parts: seq<string>, sep: string): string
    requires |parts| >= 1
    decreases |parts|
  {
    if |parts| == 1 then parts[0] else parts[0] + sep + Join(parts[1..], sep)
  }

  /** Replacing every occurrence is splitting at the occurrences and joining with `r`. */
  lemma {:induction false} ReplaceAllIsJoinOfSplit(s: string, p: string, r: string)
    requires |p| > 0
    ensures ReplaceAll(s, p, r) == Join(SplitOn(s, p), r)
    decreases |s|
  {
    if |s| < |p| {
    } else if s[..|p|] == p {
      ReplaceAllIsJoinOfSplit(s[|p|..], p, r);
      var t := SplitOn(s[|p|..], p);
      assert ([""] + t)[1..] == t;
    } else {
      ReplaceAllIsJoinOfSplit(s[1..], p, r);
      var t := SplitOn(s[1..], p);
      var parts := [[s[0]] + t[0]] + t[1..];
      assert parts[1..] == t[1..];
      if |t| > 1 {
        assert Join(t, r) == t[0] + r + Join(t[1..], r);
      }
    }
  }

  /** Replacing `p` by itself changes nothing. */
  lemma {:induction false} ReplaceAllSelf(s: string, p: string)
    requires |p| > 0
    ensures ReplaceAll(s, p, p) == s
    decreases |s|
  {
    if |s| < |p| {
    } else if s[..|p|] == p {
      ReplaceAllSelf(s[|p|..], p);
      assert s == s[..|p|] + s[|p|..];
    } else {
      ReplaceAllSelf(s[1..], p);
      assert s == [s[0]] + s[1..];
    }
  }

  /** Splitting and joining back with the separator is the identity. */
  lemma SplitJoinRoundTrip(s: string, p: string)
    requires |p| > 0
    ensures Join(SplitOn(s, p), p) == s
  {
    ReplaceAllIsJoinOfSplit(s, p, p);
    ReplaceAllSelf(s, p);
  }

  lemma {:induction false} SplitHeadIsPrefix(s: string, p: string)
    requires |p| > 0
    ensures |SplitOn(s, p)[0]| <= |s| && SplitOn(s, p)[0] == s[..|SplitOn(s, p)[0]|]
    decreases |s|
  {
    if |s| < |p| {
    } else if s[..|p|] == p {
    } else {
      SplitHeadIsPrefix(s[1..], p);
    }
  }

  /** No piece of a split holds the separator: every occurrence was cut out. */
  lemma {:induction false} SplitPiecesAreFree(s: string, p: string)
    requires |p| > 0
    ensures forall k :: 0 <= k < |SplitOn(s, p)| ==> !Contains(SplitOn(s, p)[k], p)
    decreases |s|
  {
    var parts := SplitOn(s, p);
    if |s| < |p| {
      assert parts == [s];
      assert forall j: nat :: !OccursAt(s, p, j);
    } else if s[..|p|] == p {
      SplitPiecesAreFree(s[|p|..], p);
      var t := SplitOn(s[|p|..], p);
      assert parts == [""] + t;
      assert forall j: nat :: !OccursAt("", p, j);
      forall k | 0 <= k < |parts| ensures !Contains(parts[k], p) {
        if k > 0 { assert parts[k] == t[k - 1]; }
      }
    } else {
      SplitPiecesAreFree(s[1..], p);
      SplitHeadIsPrefix(s[1..], p);
      var t := SplitOn(s[1..], p);
      var head := [s[0]] + t[0];
      assert parts == [head] + t[1..];
      assert head == s[..|head|];
      OccursAfterHead(head, p);
      assert head[1..] == t[0];
      forall j: nat ensures !OccursAt(head, p, j) {
        if j > 0 {
          assert !OccursAt(t[0], p, j - 1);
        }
      }
      forall k | 0 <= k < |parts| ensures !Contains(parts[k], p) {
        if k > 0 { assert parts[k] == t[k]; }
      }
    }
  }

  /**
   * The text after the last `c` of `s`, or all of `s` when it has no `c`
   * (JavaScript `s.split(c).pop()` and `s.split(c).at(-1)`).
   */
  function AfterLast(s: string, c: char): (r: string)
    ensures c !in r
    ensures |r| <= |s| && r == s[|s| - |r|..]
    ensures |r| < |s| ==> s[|s| - |r| - 1] == c
    decreases |s|
  {
    if |s| == 0 || s[|s| - 1] == c then ""
    else
      var init := s[..|s| - 1];
      var r' := AfterLast(init, c);
      assert s[|s| - |r'| - 1..] == init[|init| - |r'|..] + [s[|s| - 1]];
      r' + [s[|s| - 1]]
  }

  function Digit(d: nat): char
    requires d < 10
  {
    ('0' as int + d) as char
  }

  predicate IsDigit(c: char)
  {
    '0' <= c <= '9'
  }

  /** Decimal rendering of a natural number (Python `str(n)`, an f-string's `{n}`). */
  function NatToString(n: nat): (r: string)
    ensures |r| >= 1
    ensures forall i :: 0 <= i < |r| ==> IsDigit(r[i])
    decreases n
  {
    if n < 10 then [Digit(n)] else NatToString(n / 10) + [Digit(n % 10)]
  }

  /** Reading a string of decimal digits back as a number. */
  function ParseNat(s: string): nat
    decreases |s|
  {
    if s == [] then 0
    else ParseNat(s[..|s| - 1]) * 10 + (if IsDigit(s[|s| - 1]) then s[|s| - 1] as int - '0' as int else 0)
  }

  lemma {:induction false} ParseNatToString(n: nat)
    ensures ParseNat(NatToString(n)) == n
    decreases n
  {
    if n >= 10 {
      ParseNatToString(n / 10);
      var s := NatToString(n / 10) + [Digit(n % 10)];
      assert s[..|s| - 1] == NatToString(n / 10);
    }
  }

  /** Distinct numbers render as distinct strings. */
  lemma NatToStringInjective(m: nat, n: nat)
    requires NatToString(m) == NatToString(n)
    ensures m == n
  {
    ParseNatToString(m);
    ParseNatToString(n);
  }
}
