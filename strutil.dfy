// String helpers standing in for the parts of Go's `strings` and `strconv`
// packages that the supervisor relies on: TrimSpace, Contains and decimal
// formatting of integers.

module StrUtil {

  /** Go's unicode.IsSpace: the ASCII white space characters \t \n \v \f \r and
      space, U+0085 (NEL), U+00A0 (NBSP) and the Unicode space separators. */
  predicate IsSpace(c: char) {
    c == '\t' || c == '\n' || c == '\U{B}' || c == '\U{C}' || c == '\r' || c == ' '
    || c == '\U{85}' || c == '\U{A0}' || c == '\U{1680}'
    || ('\U{2000}' <= c <= '\U{200A}')
    || c == '\U{2028}' || c == '\U{2029}' || c == '\U{202F}' || c == '\U{205F}' || c == '\U{3000}'
  }

  /** Drops leading white space. The result is a suffix of `s`, empty
      exactly when `s` is all white space. */
  function TrimLeft(s: string): (r: string)
    ensures |r| <= |s| && r == s[|s| - |r|..]
    ensures forall k :: 0 <= k < |s| - |r| ==> IsSpace(s[k])
    ensures r != [] ==> !IsSpace(r[0])
    ensures r == [] <==> forall k :: 0 <= k < |s| ==> IsSpace(s[k])
  {
    if |s| > 0 && IsSpace(s[0]) then TrimLeft(s[1..]) else s
  }

  /** Drops trailing white space. The result is a prefix of `s`, empty
      exactly when `s` is all white space. */
  function TrimRight(s: string): (r: string)
    ensures |r| <= |s| && r == s[..|r|]
    ensures forall k :: |r| <= k < |s| ==> IsSpace(s[k])
    ensures r != [] ==> !IsSpace(r[|r| - 1])
    ensures r == [] <==> forall k :: 0 <= k < |s| ==> IsSpace(s[k])
  {
    if |s| > 0 && IsSpace(s[|s| - 1]) then TrimRight(s[..|s| - 1]) else s
  }

  /** `r` is the slice of `s` from `a` on, and everything of `s` before and
      after it is white space. */
  predicate TrimmedAt(s: string, r: string, a: int)
  {
    0 <= a && a + |r| <= |s| && r == s[a..a + |r|] &&
    (forall k :: 0 <= k < a ==> IsSpace(s[k])) &&
    (forall k :: a + |r| <= k < |s| ==> IsSpace(s[k]))
  }

  /** strings.TrimSpace: the longest slice of `s` that neither starts nor ends
      with white space. */
  function TrimSpace(s: string): (r: string)
    ensures |r| <= |s|
    ensures exists a :: TrimmedAt(s, r, a)
    ensures r != [] ==> !IsSpace(r[0]) && !IsSpace(r[|r| - 1])
    ensures forall c :: c in r ==> c in s
    ensures (forall k :: 0 <= k < |s| ==> IsSpace(s[k])) <==> r == []
  {
    var l := TrimLeft(s);
    var r := TrimRight(l);
    TrimmedBothEnds(s, l, r);
    r
  }

  /** A left trim `l` of `s` followed by a right trim `r` of `l` leaves the
      slice TrimSpace promises. */
  lemma TrimmedBothEnds(s: string, l: string, r: string)
    requires |l| <= |s| && l == s[|s| - |l|..]
    requires forall k :: 0 <= k < |s| - |l| ==> IsSpace(s[k])
    requires l != [] ==> !IsSpace(l[0])
    requires l == [] <==> forall k :: 0 <= k < |s| ==> IsSpace(s[k])
    requires |r| <= |l| && r == l[..|r|]
    requires forall k :: |r| <= k < |l| ==> IsSpace(l[k])
    requires r != [] ==> !IsSpace(r[|r| - 1])
    requires r == [] <==> forall k :: 0 <= k < |l| ==> IsSpace(l[k])
    ensures |r| <= |s|
    ensures exists a :: TrimmedAt(s, r, a)
    ensures r != [] ==> !IsSpace(r[0]) && !IsSpace(r[|r| - 1])
    ensures forall c :: c in r ==> c in s
    ensures (forall k :: 0 <= k < |s| ==> IsSpace(s[k])) <==> r == []
  {
    TrimEnds(l, r);
    SliceOfSuffix(s, l, r);
    SliceMembers(s, r, |s| - |l|);
  }

  /** Right-trimming `l`, which does not start with white space, keeps its
      first character. */
  lemma TrimEnds(l: string, r: string)
    requires l != [] ==> !IsSpace(l[0])
    requires |r| <= |l| && r == l[..|r|]
    requires r == [] <==> forall k :: 0 <= k < |l| ==> IsSpace(l[k])
    ensures (r == [] <==> l == []) && (r != [] ==> r[0] == l[0])
  {
    if l != [] {
      assert !IsSpace(l[0]);
    }
  }

  /** Every character of a slice is a character of the whole. */
  lemma SliceMembers(s: string, r: string, a: nat)
    requires a + |r| <= |s| && r == s[a..a + |r|]
    ensures forall c :: c in r ==> c in s
  {
    forall c | c in r ensures c in s {
      var k :| 0 <= k < |r| && r[k] == c;
      assert s[a + k] == c;
    }
  }

  /** A prefix `r` of the suffix `l` of `s`, with white space around it. */
  lemma SliceOfSuffix(s: string, l: string, r: string)
    requires |l| <= |s| && l == s[|s| - |l|..]
    requires forall k :: 0 <= k < |s| - |l| ==> IsSpace(s[k])
    requires |r| <= |l| && r == l[..|r|]
    requires forall k :: |r| <= k < |l| ==> IsSpace(l[k])
    ensures TrimmedAt(s, r, |s| - |l|)
  {
    var a := |s| - |l|;
    forall k | a + |r| <= k < |s| ensures IsSpace(s[k]) {
      assert s[k] == l[k - a];
    }
  }

  lemma TrimSpaceIdempotent(s: string)
    ensures TrimSpace(TrimSpace(s)) == TrimSpace(s)
  {
    var r := TrimSpace(s);
    assert TrimLeft(r) == r;
    assert TrimRight(r) == r;
  }

  /** `t` occurs in `s` starting at index `i`. */
  predicate OccursAt(s: string, t: string, i: int) {
    0 <= i && i + |t| <= |s| && s[i..i + |t|] == t
  }

  /** strings.Contains: `t` occurs in `s` as a contiguous piece. */
  function Contains(s: string, t: string): (b: bool)
    ensures b <==> exists i :: OccursAt(s, t, i)
  {
    if t <= s then
      assert OccursAt(s, t, 0);
      true
    else if |s| == 0 then
      assert forall i :: !OccursAt(s, t, i);
      false
    else
      var b := Contains(s[1..], t);
      assert forall i :: OccursAt(s, t, i) && i > 0 ==> OccursAt(s[1..], t, i - 1);
      assert forall i :: OccursAt(s[1..], t, i) ==> OccursAt(s, t, i + 1) by {
        forall i | OccursAt(s[1..], t, i) ensures OccursAt(s, t, i + 1) {
          assert s[i + 1..i + 1 + |t|] == s[1..][i..i + |t|];
        }
      }
      assert !OccursAt(s, t, 0);
      b
  }

  function DigitChar(d: nat): (c: char)
    requires d < 10
    ensures '0' <= c <= '9' && (c as int) - ('0' as int) == d
  {
    (('0' as int) + d) as char
  }

  /** strconv.Itoa / fmt's %d on a non-negative integer. */
  function NatToString(n: nat): (r: string)
    ensures |r| > 0 && forall i :: 0 <= i < |r| ==> '0' <= r[i] <= '9'
    ensures |r| > 1 ==> r[0] != '0'
  {
    if n < 10 then [DigitChar(n)] else NatToString(n / 10) + [DigitChar(n % 10)]
  }

  /** The value of a string of decimal digits, the inverse of NatToString. */
  function DecimalValue(s: string): int
  {
    if s == [] then 0 else 10 * DecimalValue(s[..|s| - 1]) + ((s[|s| - 1] as int) - ('0' as int))
  }

  lemma {:induction false} DecimalRoundTrip(n: nat)
    ensures DecimalValue(NatToString(n)) == n
  {
    if n >= 10 {
      DecimalRoundTrip(n / 10);
      var r := NatToString(n);
      assert r[..|r| - 1] == NatToString(n / 10);
    }
  }
}
