/** The string built-ins the core relies on (`str.find`, `str.rfind`, `in`,
    `str.upper`, `str.lower`, `str(int)`), with their Python meaning. */
module Text {
  import opened Wrappers

  /** `s.find(c)` for a one-character needle: the first index of `c`, or -1. */
  function Find(s: string, c: char): (r: int)
    ensures -1 <= r < |s|
    ensures 0 <= r ==> s[r] == c
    ensures forall m :: 0 <= m < |s| && (r < 0 || m < r) ==> s[m] != c
  {
    FirstFrom(s, c, 0)
  }

  /** The first index at or after `k` holding `c`, or -1. */
  function FirstFrom(s: string, c: char, k: nat): (r: int)
    requires k <= |s|
    ensures r == -1 || k <= r < |s|
    ensures 0 <= r ==> s[r] == c
    ensures forall m :: k <= m < |s| && (r < 0 || m < r) ==> s[m] != c
    decreases |s| - k
  {
    if k == |s| then -1
    else if s[k] == c then k
    else FirstFrom(s, c, k + 1)
  }

  /** `s.rfind(c)` for a one-character needle: the last index of `c`, or -1. */
  function RFind(s: string, c: char): (r: int)
    ensures -1 <= r < |s|
    ensures 0 <= r ==> s[r] == c
    ensures forall m :: r < m < |s| ==> s[m] != c
  {
    LastBefore(s, c, |s|)
  }

  /** The last index before `k` holding `c`, or -1. */
  function LastBefore(s: string, c: char, k: nat): (r: int)
    requires k <= |s|
    ensures -1 <= r < k
    ensures 0 <= r ==> s[r] == c
    ensures forall m :: r < m < k ==> s[m] != c
    decreases k
  {
    if k == 0 then -1
    else if s[k - 1] == c then k - 1
    else LastBefore(s, c, k - 1)
  }

  /** `i` is the index `s.find(c)` reports. */
  ghost predicate FirstOccurrence(s: string, c: char, i: int) {
    0 <= i < |s| && s[i] == c && forall m :: 0 <= m < i ==> s[m] != c
  }

  /** `j` is the index `s.rfind(c)` reports. */
  ghost predicate LastOccurrence(s: string, c: char, j: int) {
    0 <= j < |s| && s[j] == c && forall m :: j < m < |s| ==> s[m] != c
  }

  /** An index with the property `rfind` reports is the one it reports. */
  lemma RFindIsLastOccurrence(s: string, c: char, j: int)
    requires LastOccurrence(s, c, j)
    ensures RFind(s, c) == j
  {
  }

  /** A character absent from a suffix lies before it, if anywhere. */
  lemma RFindBefore(s: string, c: char, k: int)
    requires 0 <= k <= |s| && forall m :: k <= m < |s| ==> s[m] != c
    ensures RFind(s, c) < k
  {
  }

  /** `sub` occurs in `s` starting at index `i`. */
  ghost predicate OccursAt(s: string, sub: string, i: int) {
    0 <= i <= |s| - |sub| && s[i..i + |sub|] == sub
  }

  /** The substring test `sub in s`. */
  function Contains(s: string, sub: string): (r: bool)
    ensures r <==> exists i :: OccursAt(s, sub, i)
    decreases |s|
  {
    if |s| < |sub| then false
    else if s[..|sub|] == sub then
      assert OccursAt(s, sub, 0);
      true
    else
      var r := Contains(s[1..], sub);
      assert r ==> exists i :: OccursAt(s, sub, i) by {
        if r {
          var i :| OccursAt(s[1..], sub, i);
          assert s[1..][i..i + |sub|] == s[i + 1..i + 1 + |sub|];
          assert OccursAt(s, sub, i + 1);
        }
      }
      assert (exists i :: OccursAt(s, sub, i)) ==> r by {
        if exists i :: OccursAt(s, sub, i) {
          var i :| OccursAt(s, sub, i);
          assert i != 0;
          assert s[1..][i - 1..i - 1 + |sub|] == s[i..i + |sub|];
          assert OccursAt(s[1..], sub, i - 1);
        }
      }
      r
  }

  /** `sub` is found in any text that has it as an infix. */
  lemma ContainsInfix(a: string, sub: string, b: string)
    ensures Contains(a + sub + b, sub)
  {
    assert OccursAt(a + sub + b, sub, |a|) by {
      assert (a + sub + b)[|a|..|a| + |sub|] == sub;
    }
  }

  function UpperChar(c: char): char {
    if 'a' <= c <= 'z' then (c as int - 32) as char else c
  }

  function LowerChar(c: char): char {
    if 'A' <= c <= 'Z' then (c as int + 32) as char else c
  }

  /** `s.upper()`, restricted to the ASCII letters. */
  function Upper(s: string): (r: string)
    ensures |r| == |s|
    ensures forall i :: 0 <= i < |s| ==> r[i] == UpperChar(s[i])
  {
    if s == [] then [] else [UpperChar(s[0])] + Upper(s[1..])
  }

  /** `s.lower()`, restricted to the ASCII letters. */
  function Lower(s: string): (r: string)
    ensures |r| == |s|
    ensures forall i :: 0 <= i < |s| ==> r[i] == LowerChar(s[i])
  {
    if s == [] then [] else [LowerChar(s[0])] + Lower(s[1..])
  }

  lemma UpperConcat(a: string, b: string)
    ensures Upper(a + b) == Upper(a) + Upper(b)
  {
    forall i | 0 <= i < |a + b|
      ensures Upper(a + b)[i] == (Upper(a) + Upper(b))[i]
    {
      if i < |a| {
        assert (a + b)[i] == a[i];
      } else {
        assert (a + b)[i] == b[i - |a|];
      }
    }
  }

  lemma UpperSlice(s: string, i: int, j: int)
    requires 0 <= i <= j <= |s|
    ensures Upper(s)[i..j] == Upper(s[i..j])
  {
    assert forall k :: 0 <= k < j - i ==> Upper(s)[i..j][k] == Upper(s[i..j])[k];
  }

  lemma LowerConcat(a: string, b: string)
    ensures Lower(a + b) == Lower(a) + Lower(b)
  {
    forall i | 0 <= i < |a + b|
      ensures Lower(a + b)[i] == (Lower(a) + Lower(b))[i]
    {
      if i < |a| {
        assert (a + b)[i] == a[i];
      } else {
        assert (a + b)[i] == b[i - |a|];
      }
    }
  }

  function Digit(d: nat): char
    requires d < 10
  {
    "0123456789"[d]
  }

  /** A canonical decimal numeral: digits only, and no leading zero unless
      it is `0` itself. */
  predicate IsDecimal(s: string) {
    && |s| > 0
    && (forall k :: 0 <= k < |s| ==> '0' <= s[k] <= '9')
    && (|s| > 1 ==> s[0] != '0')
  }

  /** The number a string of digits denotes, read most significant first. */
  function DecimalValue(s: string): nat
    requires forall k :: 0 <= k < |s| ==> '0' <= s[k] <= '9'
  {
    if s == [] then 0 else DecimalValue(s[..|s| - 1]) * 10 + (s[|s| - 1] as int - '0' as int)
  }

  /** The integer an optionally signed numeral denotes; `int("...")` on the
      text `IntToString` produces. */
  function ReadInt(s: string): int
    requires |s| > 0
    requires s[0] == '-' ==> IsDecimal(s[1..])
    requires s[0] != '-' ==> IsDecimal(s)
  {
    if s[0] == '-' then -(DecimalValue(s[1..]) as int) else DecimalValue(s)
  }

  /** `str(n)` for a natural number: its decimal digits. */
  function NatToString(n: nat): (r: string)
    ensures |r| > 0
    ensures forall i :: 0 <= i < |r| ==> '0' <= r[i] <= '9'
    decreases n
  {
    if n < 10 then [Digit(n)] else NatToString(n / 10) + [Digit(n % 10)]
  }

  /** The digits of `n` are its canonical decimal numeral. */
  lemma {:induction false} NatToStringIsDecimal(n: nat)
    ensures IsDecimal(NatToString(n)) && DecimalValue(NatToString(n)) == n
    ensures NatToString(n)[0] == '0' <==> n == 0
    decreases n
  {
    if n >= 10 {
      var prefix := NatToString(n / 10);
      NatToStringIsDecimal(n / 10);
      var r := prefix + [Digit(n % 10)];
      assert r[..|r| - 1] == prefix;
    }
  }

  /** `str(i)` for an integer, with a leading `-` when negative. */
  function IntToString(i: int): (r: string)
    ensures |r| > 0
    ensures (r[0] == '-') <==> i < 0
  {
    if i < 0 then "-" + NatToString(-i) else NatToString(i)
  }

  /** The text of an integer is a `-` exactly when it is negative, then the
      canonical decimal numeral of its magnitude. */
  lemma IntToStringIsDecimal(i: int)
    ensures var r := IntToString(i);
            && (i >= 0 ==> IsDecimal(r) && DecimalValue(r) == i)
            && (i < 0 ==> IsDecimal(r[1..]) && DecimalValue(r[1..]) == -i)
  {
    if i < 0 {
      NatToStringIsDecimal(-i);
      assert IntToString(i)[1..] == NatToString(-i);
    } else {
      NatToStringIsDecimal(i);
    }
  }

  /** Reading back the text of an integer gives the integer, so distinct
      integers are logged as distinct texts. */
  lemma IntToStringRoundTrip(i: int)
    ensures var r := IntToString(i); (r[0] == '-' ==> IsDecimal(r[1..])) && (r[0] != '-' ==> IsDecimal(r))
    ensures ReadInt(IntToString(i)) == i
  {
    IntToStringIsDecimal(i);
  }

  /** The slice `s[s.find("{") : s.rfind("}") + 1]`, taken only when the
      guard `start >= 0 and end > start` holds; `None` otherwise. */
  function BraceSlice(s: string): (r: Option<string>)
    ensures '{' !in s || '}' !in s ==> r == None
    ensures forall i, j :: FirstOccurrence(s, '{', i) && LastOccurrence(s, '}', j) ==>
              r == (if i < j then Some(s[i..j + 1]) else None)
  {
    var start := Find(s, '{');
    var end := RFind(s, '}');
    if start >= 0 && end > start then Some(s[start..end + 1]) else None
  }

  /** The brace slice of text that wraps one braced block in prose free of
      braces is exactly that block. */
  lemma BraceSliceOfEmbedded(prefix: string, body: string, suffix: string)
    requires '{' !in prefix && '}' !in suffix
    ensures BraceSlice(prefix + "{" + body + "}" + suffix) == Some("{" + body + "}")
  {
    var s := prefix + "{" + body + "}" + suffix;
    var i, j := |prefix|, |prefix| + |body| + 1;
    assert s[..i] == prefix;
    assert s[j + 1..] == suffix;
    assert FirstOccurrence(s, '{', i);
    assert LastOccurrence(s, '}', j);
    assert s[i..j + 1] == "{" + body + "}";
  }
}
