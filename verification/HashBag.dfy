/** The offline embedder (ai/embeddings.py): tokens hashed into a signed bag of 128 entries, then scaled to length
    one. */
module HashBag {
  import opened Embeddings
  import opened Strings

  /* ---------- tokens ---------- */

  predicate IsTokenChar(c: char) { 'A' <= c <= 'Z' || 'a' <= c <= 'z' || '0' <= c <= '9' }

  /** The length of the longest prefix of token characters. */
  function Run(s: string): (n: nat)
    ensures n <= |s|
    ensures forall i :: 0 <= i < n ==> IsTokenChar(s[i])
    ensures n < |s| ==> !IsTokenChar(s[n])
  {
    if s != "" && IsTokenChar(s[0]) then 1 + Run(s[1..]) else 0
  }

  /** findall of [A-Za-z0-9]+ : the runs, from left to right. */
  function Tokens(s: string): seq<string>
    decreases |s|
  {
    if s == "" then []
    else if Run(s) == 0 then Tokens(s[1..])
    else [s[..Run(s)]] + Tokens(s[Run(s)..])
  }

  lemma RunIsLongest(s: string, n: nat)
    requires n <= |s| && (forall i :: 0 <= i < n ==> IsTokenChar(s[i])) && (n < |s| ==> !IsTokenChar(s[n]))
    ensures Run(s) == n
  {
  }

  /** A separator splits the tokens of a text into those before it and those after it. */
  lemma {:induction false} TokensSplit(s: string, separator: char, t: string)
    requires !IsAlphanumeric(separator)
    ensures Tokens(s + [separator] + t) == Tokens(s) + Tokens(t)
    decreases |s|
  {
    AlphanumericIs(separator);
    hide IsAlphanumeric;
    var w := s + [separator] + t;
    if s == "" {
      assert w[1..] == t;
    } else {
      var n := Run(s);
      RunIsLongest(w, n);
      assert w[..n] == s[..n];
      var m := if n == 0 then 1 else n;
      assert w[m..] == s[m..] + [separator] + t;
      TokensSplit(s[m..], separator, t);
    }
  }

  ghost predicate IsToken(w: string) { w != "" && forall i :: 0 <= i < |w| ==> IsAlphanumeric(w[i]) }

  lemma TokenOfToken(w: string)
    requires IsToken(w)
    ensures Tokens(w) == [w]
  {
    forall i | 0 <= i < |w|
      ensures IsTokenChar(w[i])
    {
      AlphanumericIs(w[i]);
    }
    RunIsLongest(w, |w|);
    assert w[..|w|] == w && w[|w|..] == "";
  }

  lemma NoTokens()
    ensures Tokens("") == []
  {
  }

  /** Joining words with any separator and tokenising gives the words back. */
  lemma {:induction false} TokensOfJoin(words: seq<string>, separator: char)
    requires !IsAlphanumeric(separator) && forall i :: 0 <= i < |words| ==> IsToken(words[i])
    ensures Tokens(Join(words, separator)) == words
  {
    hide IsToken, IsAlphanumeric, Tokens;
    NoTokens();
    if words != [] {
      TokenOfToken(words[0]);
      if |words| > 1 {
        TokensSplit(words[0], separator, Join(words[1..], separator));
        TokensOfJoin(words[1..], separator);
      }
    }
  }

  /* ---------- the bag ---------- */

  const DIMENSION := 128

  /** The first four bytes of a digest, big-endian. */
  type Word = h: nat | h < 0x1_0000_0000

  function Index(h: Word): nat { h % DIMENSION }

  function Sign(h: Word): real { if h / 0x8000_0000 % 2 == 1 then 1.0 else -1.0 }

  function Weight(h: Word, i: nat): real { if Index(h) == i then Sign(h) else 0.0 }

  /** Entry i of the bag of some tokens. */
  function Entry(hash: string -> Word, tokens: seq<string>, i: nat): real {
    if tokens == [] then 0.0
    else Entry(hash, tokens[..|tokens| - 1], i) + Weight(hash(tokens[|tokens| - 1]), i)
  }

  function Bag(hash: string -> Word, tokens: seq<string>): (v: seq<real>)
    ensures |v| == DIMENSION
    ensures forall i :: 0 <= i < DIMENSION ==> v[i] == Entry(hash, tokens, i)
  {
    seq(DIMENSION, i requires 0 <= i < DIMENSION => Entry(hash, tokens, i))
  }

  predicate IsHigh(h: Word, i: nat) { h % 128 == i && h >= 0x8000_0000 }

  predicate IsLow(h: Word, i: nat) { h % 128 == i && h < 0x8000_0000 }

  /** The positions whose token falls into entry i with the high bit of its hash set, and with the high bit clear. */
  function High(hash: string -> Word, tokens: seq<string>, i: nat): set<nat> {
    set k: nat | k < |tokens| && IsHigh(hash(tokens[k]), i)
  }

  function Low(hash: string -> Word, tokens: seq<string>, i: nat): set<nat> {
    set k: nat | k < |tokens| && IsLow(hash(tokens[k]), i)
  }

  /** The bag, entry by entry: the tokens that fall into it with the high bit of their hash set, minus those with the
      high bit clear. */
  lemma {:induction false} BagCounts(hash: string -> Word, tokens: seq<string>, i: nat)
    requires i < 128
    ensures Bag(hash, tokens)[i] == |High(hash, tokens, i)| as real - |Low(hash, tokens, i)| as real
    decreases |tokens|
  {
    if tokens == [] {
      assert High(hash, tokens, i) == {} && Low(hash, tokens, i) == {};
    } else {
      BagCounts(hash, tokens[..|tokens| - 1], i);
      WeightIs(hash(tokens[|tokens| - 1]), i);
      hide Weight, High, Low, IsHigh, IsLow;
      OneMoreHigh(hash, tokens, i);
      OneMoreLow(hash, tokens, i);
    }
  }

  lemma OneMoreHigh(hash: string -> Word, tokens: seq<string>, i: nat)
    requires tokens != []
    ensures |High(hash, tokens, i)| == |High(hash, tokens[..|tokens| - 1], i)|
                                       + if IsHigh(hash(tokens[|tokens| - 1]), i) then 1 else 0
  {
    hide IsHigh;
    var n := |tokens| - 1;
    assert High(hash, tokens, i) == High(hash, tokens[..n], i) + if IsHigh(hash(tokens[n]), i) then {n} else {};
  }

  lemma OneMoreLow(hash: string -> Word, tokens: seq<string>, i: nat)
    requires tokens != []
    ensures |Low(hash, tokens, i)| == |Low(hash, tokens[..|tokens| - 1], i)|
                                      + if IsLow(hash(tokens[|tokens| - 1]), i) then 1 else 0
  {
    hide IsLow;
    var n := |tokens| - 1;
    assert Low(hash, tokens, i) == Low(hash, tokens[..n], i) + if IsLow(hash(tokens[n]), i) then {n} else {};
  }

  lemma WeightIs(h: Word, i: nat)
    ensures Weight(h, i) == if IsHigh(h, i) then 1.0 else if IsLow(h, i) then -1.0 else 0.0
    ensures !(IsHigh(h, i) && IsLow(h, i))
  {
  }

  /** An entry no token falls into is zero. */
  lemma EmptyEntry(hash: string -> Word, tokens: seq<string>, i: nat)
    requires i < 128 && forall k :: 0 <= k < |tokens| ==> hash(tokens[k]) % 128 != i
    ensures Bag(hash, tokens)[i] == 0.0
  {
    BagCounts(hash, tokens, i);
    assert High(hash, tokens, i) == {} && Low(hash, tokens, i) == {};
  }

  lemma {:induction false} EntryOfConcat(hash: string -> Word, s: seq<string>, t: seq<string>, i: nat)
    ensures Entry(hash, s + t, i) == Entry(hash, s, i) + Entry(hash, t, i)
  {
    hide Weight;
    if t == [] {
      assert s + t == s;
    } else {
      assert (s + t)[..|s + t| - 1] == s + t[..|t| - 1];
      EntryOfConcat(hash, s, t[..|t| - 1], i);
    }
  }

  /** The bag is additive over concatenation. */
  lemma BagOfConcat(hash: string -> Word, s: seq<string>, t: seq<string>)
    ensures forall i :: 0 <= i < DIMENSION ==> Bag(hash, s + t)[i] == Bag(hash, s)[i] + Bag(hash, t)[i]
  {
    forall i | 0 <= i < DIMENSION
      ensures Bag(hash, s + t)[i] == Bag(hash, s)[i] + Bag(hash, t)[i]
    {
      EntryOfConcat(hash, s, t, i);
    }
  }

  /** Where a permutation holds the last element. */
  lemma SplitAt(s: seq<string>, t: seq<string>) returns (before: seq<string>, after: seq<string>)
    requires multiset(s) == multiset(t) && s != []
    ensures t == before + ([s[|s| - 1]] + after) && multiset(s[..|s| - 1]) == multiset(before + after)
  {
    var x := s[|s| - 1];
    assert s == s[..|s| - 1] + [x];
    assert x in multiset(t);
    var j :| 0 <= j < |t| && t[j] == x;
    before, after := t[..j], t[j + 1..];
    assert t == before + ([x] + after);
    var one, most, rest := multiset{x}, multiset(s[..|s| - 1]), multiset(before + after);
    assert multiset(s) == most + one;
    assert multiset(t) == rest + one by {
      assert multiset(t) == multiset(before) + multiset([x] + after);
      assert multiset([x] + after) == one + multiset(after);
    }
    assert most == (most + one) - one && rest == (rest + one) - one;
  }

  lemma {:induction false} EntryOfPermuted(hash: string -> Word, s: seq<string>, t: seq<string>, i: nat)
    requires multiset(s) == multiset(t)
    ensures Entry(hash, s, i) == Entry(hash, t, i)
    decreases |s|
  {
    hide Weight;
    if s == [] {
      assert |multiset(t)| == 0;
      assert t == [];
    } else {
      var n, x := |s| - 1, s[|s| - 1];
      assert s == s[..n] + [x];
      var before, after := SplitAt(s, t);
      EntryOfConcat(hash, before, [x] + after, i);
      EntryOfConcat(hash, [x], after, i);
      EntryOfConcat(hash, before, after, i);
      EntryOfConcat(hash, s[..n], [x], i);
      EntryOfPermuted(hash, s[..n], before + after, i);
    }
  }

  /** The bag ignores the order of the tokens. */
  lemma BagOfPermuted(hash: string -> Word, s: seq<string>, t: seq<string>)
    requires multiset(s) == multiset(t)
    ensures Bag(hash, s) == Bag(hash, t)
  {
    forall i | 0 <= i < DIMENSION
      ensures Bag(hash, s)[i] == Bag(hash, t)[i]
    {
      EntryOfPermuted(hash, s, t, i);
    }
  }

  /* ---------- the embedding ---------- */

  datatype EmbedResult = EmbedResult(model: string, dimension: nat, vector: seq<real>)

  /** What the vector is divided by: its length, or one. */
  function Divisor(sqrt: real -> real, v: seq<real>): real {
    if sqrt(Dot(v, v)) != 0.0 then sqrt(Dot(v, v)) else 1.0
  }

  function Normalised(sqrt: real -> real, v: seq<real>): (w: seq<real>)
    ensures |w| == |v|
  {
    Scale(1.0 / Divisor(sqrt, v), v)
  }

  function Embedding(sqrt: real -> real, lower: string -> string, hash: string -> Word, text: string): seq<real> {
    Normalised(sqrt, Bag(hash, Tokens(lower(text))))
  }

  lemma EntryStep(hash: string -> Word, tokens: seq<string>, k: nat)
    requires k < |tokens|
    ensures forall i: nat :: Entry(hash, tokens[..k + 1], i) == Entry(hash, tokens[..k], i) + Weight(hash(tokens[k]), i)
  {
    assert tokens[..k + 1][..k] == tokens[..k];
  }

  lemma Divide(v: real, norm: real)
    requires norm != 0.0
    ensures v / norm == Times(1.0 / norm, v)
  {
  }

  method Embed(sqrt: real -> real, lower: string -> string, hash: string -> Word, text: string) returns (r: EmbedResult)
    requires IsSqrt(sqrt)
    ensures r == EmbedResult("stub-embed-128", 128, Embedding(sqrt, lower, hash, text))
  {
    hide Times, Dot, Tokens;
    var vec := new real[DIMENSION](i => 0.0);
    var tokens := Tokens(lower(text));
    for k := 0 to |tokens|
      invariant forall i: nat :: i < DIMENSION ==> vec[i] == Entry(hash, tokens[..k], i)
    {
      EntryStep(hash, tokens, k);
      var h := hash(tokens[k]);
      var idx := h % DIMENSION;
      var sign := if h / 0x8000_0000 % 2 == 1 then 1.0 else -1.0;
      vec[idx] := vec[idx] + sign;
    }
    assert tokens[..|tokens|] == tokens;
    assert vec[..] == Bag(hash, tokens);
    var norm := sqrt(Dot(vec[..], vec[..]));
    if norm == 0.0 {
      norm := 1.0;
    }
    var bag := vec[..];
    var scaled := seq(DIMENSION, i requires 0 <= i < DIMENSION => bag[i] / norm);
    forall i | 0 <= i < DIMENSION
      ensures scaled[i] == Scale(1.0 / norm, bag)[i]
    {
      Divide(bag[i], norm);
    }
    assert scaled == Scale(1.0 / norm, bag);
    return EmbedResult("stub-embed-128", DIMENSION, scaled);
  }

  lemma DivisorPositive(sqrt: real -> real, v: seq<real>)
    requires IsSqrt(sqrt)
    ensures Divisor(sqrt, v) > 0.0
    ensures Nonzero(v) ==> Times(Divisor(sqrt, v), Divisor(sqrt, v)) == Dot(v, v)
  {
    hide Times;
    SquaresNonnegative(v);
    Root(sqrt, Dot(v, v));
    Zero(0.0);
  }

  lemma InverseSquare(d: real, x: real)
    requires d > 0.0 && Times(d, d) == x
    ensures Times(1.0 / d, Times(1.0 / d, x)) == 1.0
  {
    assert Times(1.0 / d, x) == d by {
      assert Times(1.0 / d, Times(d, d)) == (1.0 / d) * d * d;
    }
  }

  lemma InversePositive(d: real)
    requires d > 0.0
    ensures 1.0 / d > 0.0
  {
  }

  /** An embedding has length one, unless the bag is empty or cancels out: then it is zero. */
  lemma UnitLength(sqrt: real -> real, lower: string -> string, hash: string -> Word, text: string)
    requires IsSqrt(sqrt)
    ensures var bag, v := Bag(hash, Tokens(lower(text))), Embedding(sqrt, lower, hash, text);
            Dot(v, v) == if Nonzero(bag) then 1.0 else 0.0
  {
    hide Times, Tokens;
    var bag := Bag(hash, Tokens(lower(text)));
    var d := Divisor(sqrt, bag);
    DivisorPositive(sqrt, bag);
    DotOfBothScaled(1.0 / d, bag);
    if Nonzero(bag) {
      InverseSquare(d, Dot(bag, bag));
    } else {
      DotWithZeros(bag, bag);
      Zero(1.0 / d);
    }
  }

  lemma RootOfScaled(sqrt: real -> real, k: real, a: seq<real>)
    requires IsSqrt(sqrt) && k > 0.0
    ensures sqrt(Dot(Scale(k, a), Scale(k, a))) == Times(k, sqrt(Dot(a, a)))
  {
    hide Times;
    var aa, r := Dot(a, a), sqrt(Dot(a, a));
    DotOfBothScaled(k, a);
    SquaresNonnegative(a);
    SquaresNonnegative(Scale(k, a));
    Root(sqrt, aa);
    Root(sqrt, Dot(Scale(k, a), Scale(k, a)));
    SquareOfProduct(k, r);
    Associate(k, k, aa);
    var q := sqrt(Dot(Scale(k, a), Scale(k, a)));
    if r > 0.0 {
      Positive(k, r);
      EqualSquares(q, Times(k, r));
    } else {
      Zero(k);
      Zero(0.0);
      Square(q);
    }
  }

  lemma RatioOfScaled(k: real, dot: real, na: real, nb: real)
    requires k > 0.0
    ensures Ratio(Times(k, dot), Times(k, na), nb) == Ratio(dot, na, nb)
  {
    if na != 0.0 && nb != 0.0 {
      RatioGuard(na, nb);
      RatioGuard(k, na);
      RatioGuard(Times(k, na), nb);
      Cancel(k, dot, na, nb);
    } else {
      Zero(k);
    }
  }

  lemma Cancel(k: real, dot: real, na: real, nb: real)
    requires k > 0.0 && Times(na, nb) != 0.0 && Times(Times(k, na), nb) != 0.0
    ensures Times(k, dot) / Times(Times(k, na), nb) == dot / Times(na, nb)
  {
    var m, q := Times(na, nb), dot / Times(na, nb);
    Associate(k, na, nb);
    assert q * m == dot;
    assert (k * m) * q == k * dot;
  }

  /** Scaling a vector by a positive factor keeps its cosine with any other. */
  lemma CosineOfScaled(sqrt: real -> real, k: real, a: seq<real>, b: seq<real>)
    requires IsSqrt(sqrt) && k > 0.0
    ensures Cosine(sqrt, Scale(k, a), b) == Cosine(sqrt, a, b)
  {
    hide Times, Ratio;
    if |a| == |b| && a != [] {
      DotOfScaled(k, a, b);
      RootOfScaled(sqrt, k, a);
      RatioOfScaled(k, Dot(a, b), sqrt(Dot(a, a)), sqrt(Dot(b, b)));
    }
  }

  /** Two embeddings are exactly as similar as the bags they were scaled from. */
  lemma SimilarityIsThatOfBags(sqrt: real -> real, lower: string -> string, hash: string -> Word, s: string, t: string)
    requires IsSqrt(sqrt)
    ensures Cosine(sqrt, Embedding(sqrt, lower, hash, s), Embedding(sqrt, lower, hash, t))
            == Cosine(sqrt, Bag(hash, Tokens(lower(s))), Bag(hash, Tokens(lower(t))))
  {
    hide Times, Ratio, Tokens;
    var a, b := Bag(hash, Tokens(lower(s))), Bag(hash, Tokens(lower(t)));
    DivisorPositive(sqrt, a);
    DivisorPositive(sqrt, b);
    var j, k := 1.0 / Divisor(sqrt, a), 1.0 / Divisor(sqrt, b);
    InversePositive(Divisor(sqrt, a));
    InversePositive(Divisor(sqrt, b));
    CosineOfScaled(sqrt, j, a, Scale(k, b));
    CosineSymmetric(sqrt, a, Scale(k, b));
    CosineOfScaled(sqrt, k, b, a);
    CosineSymmetric(sqrt, a, b);
  }

  lemma {:induction false} DotOfApart(a: seq<real>, b: seq<real>)
    requires |a| == |b| && forall i :: 0 <= i < |a| ==> a[i] == 0.0 || b[i] == 0.0
    ensures Dot(a, b) == 0.0
  {
    hide Times;
    if a != [] {
      var n := |a| - 1;
      Zero(a[n]);
      Zero(b[n]);
      Zero(a[0]);
      Zero(b[0]);
      DotOfApart(a[1..], b[1..]);
    }
  }

  lemma NoRatio(na: real, nb: real)
    ensures Ratio(0.0, na, nb) == 0.0
  {
    if na != 0.0 && nb != 0.0 {
      RatioGuard(na, nb);
    }
  }

  /** Texts whose tokens fall into no common entry are not similar at all. */
  lemma ApartTextsDiffer(sqrt: real -> real, lower: string -> string, hash: string -> Word, s: string, t: string)
    requires IsSqrt(sqrt)
    requires forall v, w :: v in Tokens(lower(s)) && w in Tokens(lower(t)) ==> hash(v) % 128 != hash(w) % 128
    ensures Cosine(sqrt, Embedding(sqrt, lower, hash, s), Embedding(sqrt, lower, hash, t)) == 0.0
  {
    hide Times, Ratio, Tokens, Embedding;
    var a, b := Bag(hash, Tokens(lower(s))), Bag(hash, Tokens(lower(t)));
    SimilarityIsThatOfBags(sqrt, lower, hash, s, t);
    forall i | 0 <= i < |a|
      ensures a[i] == 0.0 || b[i] == 0.0
    {
      BothEmpty(hash, Tokens(lower(s)), Tokens(lower(t)), i);
    }
    DotOfApart(a, b);
    NoRatio(sqrt(Dot(a, a)), sqrt(Dot(b, b)));
  }

  lemma BothEmpty(hash: string -> Word, s: seq<string>, t: seq<string>, i: nat)
    requires i < 128 && forall v, w :: v in s && w in t ==> hash(v) % 128 != hash(w) % 128
    ensures Bag(hash, s)[i] == 0.0 || Bag(hash, t)[i] == 0.0
  {
    if k :| 0 <= k < |s| && hash(s[k]) % 128 == i {
      assert s[k] in s;
      assert forall j :: 0 <= j < |t| ==> t[j] in t;
      EmptyEntry(hash, t, i);
    } else {
      EmptyEntry(hash, s, i);
    }
  }

  /** Texts with the same tokens in any order have the same embedding; its cosine is one unless the bag is zero. */
  lemma ReorderedTextsAgree(sqrt: real -> real, lower: string -> string, hash: string -> Word, s: string, t: string)
    requires IsSqrt(sqrt) && multiset(Tokens(lower(s))) == multiset(Tokens(lower(t)))
    ensures var v, w := Embedding(sqrt, lower, hash, s), Embedding(sqrt, lower, hash, t);
            v == w && Cosine(sqrt, v, w) == if Nonzero(Bag(hash, Tokens(lower(s)))) then 1.0 else 0.0
  {
    hide Times, Tokens;
    BagOfPermuted(hash, Tokens(lower(s)), Tokens(lower(t)));
    SimilarityIsThatOfBags(sqrt, lower, hash, s, t);
    SelfCosine(sqrt, Bag(hash, Tokens(lower(s))));
  }
}
