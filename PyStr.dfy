/** The few Python `str` operations the assistant relies on: `lower`, `strip`,
    `isspace` and `','.join`, restricted to the ASCII range, together with
    `split`, the inverse of `join`. */
module PyStr {

  /** `c.isspace()` for code points below 128: the controls 9 to 13, the
      separators 28 to 31 and the space. */
  predicate IsSpace(c: char)
    ensures IsSpace(c) <==> c in AsciiWhitespace
  {
    c == ' ' || 9 <= c as int <= 13 || 28 <= c as int <= 31
  }

  /** Tab, line feed, vertical tab, form feed, carriage return, the file,
      group, record and unit separators, and the space. */
  const AsciiWhitespace: set<char> :=
    {9 as char, 10 as char, 11 as char, 12 as char, 13 as char,
     28 as char, 29 as char, 30 as char, 31 as char, ' '}

  predicate IsUpper(c: char) {
    'A' <= c <= 'Z'
  }

  /** `c.lower()` for code points below 128. */
  function LowerChar(c: char): (d: char)
    ensures !IsUpper(d)
    ensures IsUpper(c) ==> 'a' <= d <= 'z' && d as int == c as int + 32
    ensures !IsUpper(c) ==> d == c
    ensures IsSpace(d) <==> IsSpace(c)
  {
    if IsUpper(c) then (c as int + 32) as char else c
  }

  /** `s.lower()`: every upper-case letter replaced by its lower-case form. */
  function Lower(s: string): (r: string)
    ensures |r| == |s|
    ensures forall i :: 0 <= i < |s| ==> r[i] == LowerChar(s[i])
  {
    seq(|s|, i requires 0 <= i < |s| => LowerChar(s[i]))
  }

  ghost predicate AllSpace(s: string) {
    forall i :: 0 <= i < |s| ==> IsSpace(s[i])
  }

  /** Neither the first nor the last character is whitespace. */
  ghost predicate NoEdgeSpace(s: string) {
    s != [] ==> !IsSpace(s[0]) && !IsSpace(s[|s| - 1])
  }

  /** The forward scan of `strip`: from `i` on, the index of the first
      character that is not whitespace, or `|s|` if there is none. */
  function SkipSpace(s: string, i: nat): (k: nat)
    requires i <= |s|
    ensures i <= k <= |s|
    ensures forall m :: i <= m < k ==> IsSpace(s[m])
    ensures k < |s| ==> !IsSpace(s[k])
    decreases |s| - i
  {
    if i < |s| && IsSpace(s[i]) then SkipSpace(s, i + 1) else i
  }

  /** The backward scan of `strip`: from `j` down to no further than `lo`,
      the index just after the last character that is not whitespace. */
  function SkipSpaceBack(s: string, lo: nat, j: nat): (k: nat)
    requires lo <= j <= |s|
    ensures lo <= k <= j
    ensures forall m :: k <= m < j ==> IsSpace(s[m])
    ensures k > lo ==> !IsSpace(s[k - 1])
  {
    if j > lo && IsSpace(s[j - 1]) then SkipSpaceBack(s, lo, j - 1) else j
  }

  /** `s.strip()`: skip the leading whitespace, then, from the end back to
      where the first scan stopped, the trailing whitespace. */
  function Strip(s: string): (r: string)
    ensures |r| <= |s|
    ensures NoEdgeSpace(r)
  {
    var i := SkipSpace(s, 0);
    s[i..SkipSpaceBack(s, i, |s|)]
  }

  /** Each scan stops at the one place its contract allows. */
  lemma SkipSpaceAt(s: string, i: nat, k: nat)
    requires i <= k <= |s|
    requires forall m :: i <= m < k ==> IsSpace(s[m])
    requires k < |s| ==> !IsSpace(s[k])
    ensures SkipSpace(s, i) == k
  {
  }

  lemma SkipSpaceBackAt(s: string, lo: nat, j: nat, k: nat)
    requires lo <= k <= j <= |s|
    requires forall m :: k <= m < j ==> IsSpace(s[m])
    requires k > lo ==> !IsSpace(s[k - 1])
    ensures SkipSpaceBack(s, lo, j) == k
  {
  }

  /** Stripping splits `s` into leading whitespace, the result and trailing
      whitespace; `i` and `j` are where the result starts and ends. */
  lemma StripSplit(s: string) returns (i: nat, j: nat)
    ensures i <= j <= |s|
    ensures AllSpace(s[..i]) && AllSpace(s[j..])
    ensures Strip(s) == s[i..j]
  {
    i := SkipSpace(s, 0);
    j := SkipSpaceBack(s, i, |s|);
    assert forall m :: 0 <= m < i ==> s[..i][m] == s[m];
    assert forall m :: 0 <= m < |s| - j ==> s[j..][m] == s[j + m];
  }

  /** Whatever is padded with whitespace on both sides, and has no whitespace
      at its own ends, is exactly what stripping gives back. */
  lemma StripUnique(a: string, c: string, b: string)
    requires AllSpace(a) && AllSpace(b) && NoEdgeSpace(c)
    ensures Strip(a + c + b) == c
  {
    var s := a + c + b;
    if c == [] {
      assert forall m :: 0 <= m < |s| ==> IsSpace(s[m]) by {
        forall m | 0 <= m < |s| ensures IsSpace(s[m]) {
          if m < |a| { assert s[m] == a[m]; } else { assert s[m] == b[m - |a|]; }
        }
      }
      SkipSpaceAt(s, 0, |s|);
    } else {
      var j := |a| + |c|;
      assert s[|a|] == c[0] && s[j - 1] == c[|c| - 1];
      assert forall m :: 0 <= m < |a| ==> s[m] == a[m];
      assert forall m :: j <= m < |s| ==> s[m] == b[m - j];
      SkipSpaceAt(s, 0, |a|);
      SkipSpaceBackAt(s, |a|, |s|, j);
      assert s[|a|..j] == c;
    }
  }

  /** Stripping twice is stripping once. */
  lemma StripIdempotent(s: string)
    ensures Strip(Strip(s)) == Strip(s)
  {
    var c := Strip(s);
    assert [] + c + [] == c;
    StripUnique([], c, []);
  }

  lemma LowerAppend(a: string, b: string)
    ensures Lower(a + b) == Lower(a) + Lower(b)
  {
  }

  lemma LowerSlice(s: string, i: nat, j: nat)
    requires i <= j <= |s|
    ensures Lower(s[i..j]) == Lower(s)[i..j]
  {
    var l, r := Lower(s[i..j]), Lower(s)[i..j];
    forall k | 0 <= k < j - i ensures l[k] == r[k] {
      assert s[i..j][k] == s[i + k];
    }
  }

  /** Text without upper-case letters is its own lower-case form. */
  lemma LowerFixes(s: string)
    requires forall i :: 0 <= i < |s| ==> !IsUpper(s[i])
    ensures Lower(s) == s
  {
  }

  /** Lower-casing lower-cased text changes nothing. */
  lemma LowerIdempotent(s: string)
    ensures Lower(Lower(s)) == Lower(s)
  {
  }

  /** Lower-casing neither creates nor removes whitespace. */
  lemma LowerKeepsSpace(s: string)
    ensures AllSpace(Lower(s)) <==> AllSpace(s)
  {
  }

  /** `sep.join(xs)`: the elements in order, one `sep` between neighbours. */
  function Join(sep: char, xs: seq<string>): (r: string)
    ensures xs == [] ==> r == ""
    ensures |xs| == 1 ==> r == xs[0]
  {
    if |xs| == 0 then ""
    else if |xs| == 1 then xs[0]
    else xs[0] + [sep] + Join(sep, xs[1..])
  }

  lemma JoinPair(sep: char, x: string, y: string)
    ensures Join(sep, [x, y]) == x + [sep] + y
  {
    assert [x, y][1..] == [y];
  }

  /** `s.split(sep)`: the pieces between occurrences of `sep`; never empty. */
  function Split(s: string, sep: char): (r: seq<string>)
    ensures |r| >= 1
  {
    if s == [] then [""]
    else
      var rest := Split(s[1..], sep);
      if s[0] == sep then [""] + rest else [[s[0]] + rest[0]] + rest[1..]
  }

  lemma {:induction false} SplitPlain(x: string, sep: char)
    requires sep !in x
    ensures Split(x, sep) == [x]
  {
    if x != [] {
      SplitPlain(x[1..], sep);
      assert [x[0]] + x[1..] == x;
    }
  }

  lemma {:induction false} SplitAfterSep(x: string, sep: char, t: string)
    requires sep !in x
    ensures Split(x + [sep] + t, sep) == [x] + Split(t, sep)
  {
    if x == [] {
      assert x + [sep] + t == [sep] + t;
      assert ([sep] + t)[1..] == t;
    } else {
      assert (x + [sep] + t)[1..] == x[1..] + [sep] + t;
      SplitAfterSep(x[1..], sep, t);
      assert [x[0]] + x[1..] == x;
    }
  }

  /** The comma-joined list can be taken apart again, element by element,
      as long as no element itself contains the separator. */
  lemma {:induction false} SplitJoin(sep: char, xs: seq<string>)
    requires xs != []
    requires forall k :: 0 <= k < |xs| ==> sep !in xs[k]
    ensures Split(Join(sep, xs), sep) == xs
  {
    if |xs| == 1 {
      SplitPlain(xs[0], sep);
    } else {
      SplitJoin(sep, xs[1..]);
      SplitAfterSep(xs[0], sep, Join(sep, xs[1..]));
      assert [xs[0]] + xs[1..] == xs;
    }
  }
}
