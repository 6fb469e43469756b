/** Operations on strings shared by the models: hexadecimal digits, replacing, stripping, joining and splitting. */
module Strings {
  import opened Prelude

  type Nibble = n: nat | n < 16

  function HexValue(c: char): Option<Nibble> {
    if '0' <= c <= '9' then Some((c as int - '0' as int) as Nibble)
    else if 'a' <= c <= 'f' then Some((c as int - 'a' as int + 10) as Nibble)
    else if 'A' <= c <= 'F' then Some((c as int - 'A' as int + 10) as Nibble)
    else None
  }

  const UPPER := "ABCDEFGHIJKLMNOPQRSTUVWXYZ"
  const LOWER := "abcdefghijklmnopqrstuvwxyz"
  const DECIMAL := "0123456789"

  /** The letters and digits of ASCII, one by one. */
  predicate IsAlphanumeric(c: char) { c in UPPER || c in LOWER || c in DECIMAL }

  lemma UpperIs(c: char)
    ensures c in UPPER <==> 'A' <= c <= 'Z'
  {
    if 'A' <= c <= 'Z' {
      assert UPPER[c as int - 'A' as int] == c;
    }
  }

  lemma LowerIs(c: char)
    ensures c in LOWER <==> 'a' <= c <= 'z'
  {
    if 'a' <= c <= 'z' {
      assert LOWER[c as int - 'a' as int] == c;
    }
  }

  lemma DecimalIs(c: char)
    ensures c in DECIMAL <==> '0' <= c <= '9'
  {
    if '0' <= c <= '9' {
      assert DECIMAL[c as int - '0' as int] == c;
    }
  }

  /** They are the three ranges. */
  lemma AlphanumericIs(c: char)
    ensures IsAlphanumeric(c) <==> 'A' <= c <= 'Z' || 'a' <= c <= 'z' || '0' <= c <= '9'
  {
    UpperIs(c);
    LowerIs(c);
    DecimalIs(c);
    hide UPPER, LOWER, DECIMAL;
  }

  /** str.replace(pattern, ""). */
  function Without(s: string, pattern: string): string
    requires pattern != ""
    decreases |s|
  {
    if s == "" then ""
    else if pattern <= s then Without(s[|pattern|..], pattern)
    else [s[0]] + Without(s[1..], pattern)
  }

  function StripLeft(s: string, chars: string): string {
    if s != "" && s[0] in chars then StripLeft(s[1..], chars) else s
  }

  function StripRight(s: string, chars: string): string {
    if s != "" && s[|s| - 1] in chars then StripRight(s[..|s| - 1], chars) else s
  }

  function Strip(s: string, chars: string): string { StripRight(StripLeft(s, chars), chars) }

  lemma {:induction false} WithoutAbsent(s: string, pattern: string)
    requires pattern != "" && pattern[0] !in s
    ensures Without(s, pattern) == s
  {
    if s != "" {
      assert s[0] in s;
      assert forall c :: c in s[1..] ==> c in s;
      WithoutAbsent(s[1..], pattern);
    }
  }

  lemma {:induction false} WithoutOneChar(s: string, t: string, c: char)
    requires c !in s
    ensures Without(s + [c] + t, [c]) == s + Without(t, [c])
  {
    var w := s + [c] + t;
    if s == "" {
      assert w == [c] + t && w[1..] == t && [c] <= w;
    } else {
      assert s[0] in s && w[0] == s[0] && w[1..] == s[1..] + [c] + t;
      WithoutOneChar(s[1..], t, c);
    }
  }

  /* ---------- joining and splitting ---------- */

  /** The length of the longest prefix without any of the stops. */
  function Cut(s: string, stops: string): (n: nat)
    ensures n <= |s|
    ensures forall i :: 0 <= i < n ==> s[i] !in stops
    ensures n < |s| ==> s[n] in stops
  {
    if s == "" || s[0] in stops then 0 else 1 + Cut(s[1..], stops)
  }

  lemma CutAt(s: string, stops: string, n: nat)
    requires n <= |s| && (forall i :: 0 <= i < n ==> s[i] !in stops) && (n < |s| ==> s[n] in stops)
    ensures Cut(s, stops) == n
  {
  }

  /** separator.join(parts). */
  function Join(parts: seq<string>, separator: char): string {
    if parts == [] then ""
    else if |parts| == 1 then parts[0]
    else parts[0] + [separator] + Join(parts[1..], separator)
  }

  /** text.split(separator). */
  function Split(s: string, separator: char): (parts: seq<string>)
    ensures parts != []
    decreases |s|
  {
    var n := Cut(s, [separator]);
    if n == |s| then [s] else [s[..n]] + Split(s[n + 1..], separator)
  }

  lemma {:induction false} SplitOfJoin(parts: seq<string>, separator: char)
    requires parts != [] && forall i :: 0 <= i < |parts| ==> separator !in parts[i]
    ensures Split(Join(parts, separator), separator) == parts
    decreases |parts|
  {
    var s, p := Join(parts, separator), parts[0];
    CutAt(s, [separator], |p|);
    if |parts| == 1 {
      assert s[..|p|] == s && parts == [p];
    } else {
      assert s[..|p|] == p && s[|p| + 1..] == Join(parts[1..], separator);
      SplitOfJoin(parts[1..], separator);
      assert parts == [p] + parts[1..];
    }
  }

  lemma {:induction false} JoinOneMore(parts: seq<string>, last: string, separator: char)
    requires parts != []
    ensures Join(parts + [last], separator) == Join(parts, separator) + [separator] + last
    decreases |parts|
  {
    var more := parts + [last];
    assert more[1..] == parts[1..] + [last];
    if |parts| > 1 {
      JoinOneMore(parts[1..], last, separator);
    } else {
      assert parts[1..] + [last] == [last];
    }
  }

  /* ---------- a pattern that does not occur ---------- */

  predicate OccursAt(s: string, pattern: string, i: int) { 0 <= i <= |s| && pattern <= s[i..] }

  lemma {:induction false} WithoutNone(s: string, pattern: string)
    requires pattern != "" && forall i :: !OccursAt(s, pattern, i)
    ensures Without(s, pattern) == s
  {
    if s != "" {
      assert !OccursAt(s, pattern, 0) && s[0..] == s;
      forall i: int
        ensures !OccursAt(s[1..], pattern, i)
      {
        if 0 <= i <= |s[1..]| {
          assert !OccursAt(s, pattern, i + 1) && s[1..][i..] == s[i + 1..];
        }
      }
      WithoutNone(s[1..], pattern);
    }
  }

  function Count(s: string, c: char): nat {
    if s == "" then 0 else (if s[0] == c then 1 else 0) + Count(s[1..], c)
  }

  lemma {:induction false} CountOfConcat(s: string, t: string, c: char)
    ensures Count(s + t, c) == Count(s, c) + Count(t, c)
  {
    if s == "" {
      assert s + t == t;
    } else {
      assert (s + t)[1..] == s[1..] + t;
      CountOfConcat(s[1..], t, c);
    }
  }

  /** Removing a pattern that occurs loses the characters of at least one occurrence. */
  lemma {:induction false} WithoutSome(s: string, pattern: string, c: char)
    requires pattern != ""
    ensures Count(Without(s, pattern), c) <= Count(s, c)
    ensures c in pattern && (exists i :: OccursAt(s, pattern, i)) ==> Count(Without(s, pattern), c) < Count(s, c)
    decreases |s|
  {
    if s != "" {
      if pattern <= s {
        var t := s[|pattern|..];
        assert s == pattern + t;
        CountOfConcat(pattern, t, c);
        WithoutSome(t, pattern, c);
        if c in pattern {
          CountPositive(pattern, c);
        }
      } else {
        WithoutSome(s[1..], pattern, c);
        CountOfConcat([s[0]], Without(s[1..], pattern), c);
        if c in pattern && exists i :: OccursAt(s, pattern, i) {
          var i :| OccursAt(s, pattern, i);
          assert s[0..] == s;
          assert s[1..][i - 1..] == s[i..];
          assert OccursAt(s[1..], pattern, i - 1);
        }
      }
    }
  }

  lemma {:induction false} CountPositive(s: string, c: char)
    requires c in s
    ensures Count(s, c) > 0
  {
    if s[0] != c {
      CountPositive(s[1..], c);
    }
  }
}
