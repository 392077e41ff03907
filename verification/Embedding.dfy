/** Hashed embeddings of texts and their similarity (backend/memory.py), over real arithmetic. */
module Embedding {
  import opened Text
  import opened Products

  // ---------------------------------------------------------------- vectors

  function SumSq(v: seq<real>): (r: real)
    ensures r >= 0.0
  {
    if v == [] then 0.0
    else Square(v[|v| - 1]); SumSq(v[..|v| - 1]) + Mul(v[|v| - 1], v[|v| - 1])
  }

  /** `_cosine_similarity`: the sum of products over the shorter of the two lengths. */
  function Dot(a: seq<real>, b: seq<real>): real {
    var n := if |a| <= |b| then |a| else |b|;
    if n == 0 then 0.0 else Dot(a[..n - 1], b[..n - 1]) + Mul(a[n - 1], b[n - 1])
  }

  function Scaled(v: seq<real>, m: real): (r: seq<real>)
    requires m != 0.0
    ensures |r| == |v|
  {
    seq(|v|, i requires 0 <= i < |v| => v[i] / m)
  }

  /** Square roots, idealised. */
  ghost predicate Root(m: real, x: real) {
    m >= 0.0 && Mul(m, m) == x
  }

  function Divisor(m: real): (d: real)
    ensures d != 0.0
  {
    if m == 0.0 then 1.0 else m
  }

  predicate NoNegative(v: seq<real>) {
    forall i :: 0 <= i < |v| ==> v[i] >= 0.0
  }

  lemma {:induction false} ScaledSumSq(v: seq<real>, m: real)
    requires m != 0.0
    ensures Mul(SumSq(Scaled(v, m)), Mul(m, m)) == SumSq(v)
  {
    hide Mul;
    if v == [] {
      Zero(Mul(m, m));
    } else {
      var n := |v| - 1;
      ScaledSumSq(v[..n], m);
      assert Scaled(v, m)[..n] == Scaled(v[..n], m);
      var q := v[n] / m;
      QuotientSquare(v[n], m);
      Distribute(SumSq(Scaled(v[..n], m)), Mul(q, q), Mul(m, m));
    }
  }

  /** Dividing by its length makes a vector that is not zero a unit vector; the zero vector stays as it is. */
  lemma {:induction false} Normalized(v: seq<real>, m: real)
    requires Root(m, SumSq(v))
    ensures SumSq(Scaled(v, Divisor(m))) == if SumSq(v) == 0.0 then 0.0 else 1.0
  {
    assert Mul(SumSq(Scaled(v, Divisor(m))), 1.0) == SumSq(Scaled(v, Divisor(m)));
    assert Mul(1.0, 1.0) == 1.0;
    hide Mul, SumSq;
    Square(m);
    ScaledSumSq(v, Divisor(m));
    if m != 0.0 { UnitFactor(SumSq(Scaled(v, m)), Mul(m, m)); }
  }

  lemma RootUnique(m: real, n: real, x: real)
    requires Root(m, x) && Root(n, x)
    ensures m == n
  {
    hide Mul;
    SquareDifference(m, n);
    if m + n > 0.0 {
      Commute(m - n, m + n);
      NoZeroDivisors(m + n, m - n);
    }
  }

  function Distance(a: seq<real>, b: seq<real>): (d: real)
    requires |a| == |b|
    ensures d >= 0.0
  {
    if a == [] then 0.0
    else
      var n := |a| - 1;
      Square(a[n] - b[n]);
      Distance(a[..n], b[..n]) + Mul(a[n] - b[n], a[n] - b[n])
  }

  lemma {:induction false} DistanceExpands(a: seq<real>, b: seq<real>)
    requires |a| == |b|
    ensures Distance(a, b) == SumSq(a) + SumSq(b) - 2.0 * Dot(a, b)
  {
    hide Mul;
    if a != [] {
      var n := |a| - 1;
      DistanceExpands(a[..n], b[..n]);
      DifferenceSquare(a[n], b[n]);
    }
  }

  lemma {:induction false} ZeroDistance(a: seq<real>, b: seq<real>)
    requires |a| == |b| && Distance(a, b) == 0.0
    ensures a == b
  {
    hide Mul;
    if a != [] {
      var n := |a| - 1;
      Square(a[n] - b[n]);
      ZeroDistance(a[..n], b[..n]);
      assert a == a[..n] + [a[n]] && b == b[..n] + [b[n]];
    }
  }

  lemma {:induction false} DotNonneg(a: seq<real>, b: seq<real>)
    requires |a| == |b| && NoNegative(a) && NoNegative(b)
    ensures Dot(a, b) >= 0.0
  {
    hide Mul;
    if a != [] {
      DotNonneg(a[..|a| - 1], b[..|a| - 1]);
      Nonnegative(a[|a| - 1], b[|a| - 1]);
    }
  }

  lemma {:induction false} DotSelf(a: seq<real>)
    ensures Dot(a, a) == SumSq(a)
  {
    hide Mul;
    if a != [] { DotSelf(a[..|a| - 1]); }
  }

  /** The score of two normalised vectors without negative entries lies in [0, 1], and is 1 exactly when they are one
      and the same unit vector. */
  lemma {:induction false} ScoreBounds(a: seq<real>, b: seq<real>)
    requires |a| == |b| && NoNegative(a) && NoNegative(b)
    requires SumSq(a) == 0.0 || SumSq(a) == 1.0
    requires SumSq(b) == 0.0 || SumSq(b) == 1.0
    ensures 0.0 <= Dot(a, b) <= 1.0
    ensures Dot(a, b) == 1.0 <==> a == b && SumSq(a) == 1.0
  {
    DotNonneg(a, b);
    DistanceExpands(a, b);
    DotSelf(a);
    if Dot(a, b) == 1.0 { ZeroDistance(a, b); }
  }

  // ---------------------------------------------------------------- embedding

  /** `str.split` on white space; `word` is what has been read of the current one. */
  function Tokens(s: string, word: string): seq<string>
    decreases |s|
  {
    if s == [] then if word == "" then [] else [word]
    else if IsSpace(s[0]) then (if word == "" then [] else [word]) + Tokens(s[1..], "")
    else Tokens(s[1..], word + [s[0]])
  }

  /** How a text is hashed: into how many buckets, and into which one each token falls. */
  datatype Hashing = Hashing(dimensions: nat, hash: string -> nat) {
    predicate Valid() { dimensions > 0 }

    function Bucket(token: string): (i: nat)
      requires Valid()
      ensures i < dimensions
    {
      hash(token) % dimensions
    }
  }

  function Bump(v: seq<real>, i: nat): (r: seq<real>)
    requires i < |v|
    ensures |r| == |v|
  {
    v[i := v[i] + 1.0]
  }

  /** How many tokens fall into each bucket. */
  function Histogram(h: Hashing, tokens: seq<string>): (v: seq<real>)
    requires h.Valid()
    ensures |v| == h.dimensions
  {
    if tokens == [] then seq(h.dimensions, _ => 0.0)
    else Bump(Histogram(h, tokens[..|tokens| - 1]), h.Bucket(tokens[|tokens| - 1]))
  }

  function CountIn(h: Hashing, tokens: seq<string>, i: nat): nat
    requires h.Valid()
  {
    if tokens == [] then 0
    else CountIn(h, tokens[..|tokens| - 1], i) + (if h.Bucket(tokens[|tokens| - 1]) == i then 1 else 0)
  }

  lemma {:induction false} HistogramCounts(h: Hashing, tokens: seq<string>, i: nat)
    requires h.Valid() && i < h.dimensions
    ensures Histogram(h, tokens)[i] == CountIn(h, tokens, i) as real
  {
    if tokens != [] { HistogramCounts(h, tokens[..|tokens| - 1], i); }
  }

  lemma {:induction false} HistogramNoNegative(h: Hashing, tokens: seq<string>)
    requires h.Valid()
    ensures NoNegative(Histogram(h, tokens))
  {
    forall i | 0 <= i < h.dimensions ensures Histogram(h, tokens)[i] >= 0.0 { HistogramCounts(h, tokens, i); }
  }

  lemma {:induction false} SumSqCovers(v: seq<real>, i: nat)
    requires i < |v|
    ensures SumSq(v) >= Mul(v[i], v[i])
  {
    hide Mul;
    Square(v[|v| - 1]);
    if i < |v| - 1 { SumSqCovers(v[..|v| - 1], i); }
  }

  lemma {:induction false} SumSqZero(v: seq<real>)
    requires forall i :: 0 <= i < |v| ==> v[i] == 0.0
    ensures SumSq(v) == 0.0
  {
    Zero(0.0);
    hide Mul;
    if v != [] { SumSqZero(v[..|v| - 1]); }
  }

  /** The histogram is the zero vector exactly for a blank text. */
  lemma {:induction false} BlankIsZero(h: Hashing, tokens: seq<string>)
    requires h.Valid()
    ensures SumSq(Histogram(h, tokens)) == 0.0 <==> tokens == []
  {
    if tokens == [] {
      SumSqZero(Histogram(h, tokens));
    } else {
      var i := h.Bucket(tokens[|tokens| - 1]);
      HistogramCounts(h, tokens, i);
      hide Mul;
      Positive(Histogram(h, tokens)[i], Histogram(h, tokens)[i]);
      SumSqCovers(Histogram(h, tokens), i);
    }
  }

  function TokensOf(text: string): seq<string> { Tokens(Lower(text), "") }

  function Embed(h: Hashing, text: string, m: real): (v: seq<real>)
    requires h.Valid()
    ensures |v| == h.dimensions
  {
    Scaled(Histogram(h, TokensOf(text)), Divisor(m))
  }

  /** The vector is the embedding of the text, under the one square root there is. */
  ghost predicate IsEmbedding(h: Hashing, text: string, v: seq<real>)
    requires h.Valid()
  {
    exists m :: Root(m, SumSq(Histogram(h, TokensOf(text)))) && v == Embed(h, text, m)
  }

  /** The counting loop of `embed`, on the vector in place. */
  method CountTokens(h: Hashing, tokens: seq<string>, vector: array<real>)
    requires h.Valid() && vector.Length == h.dimensions
    modifies vector
    ensures vector[..] == Histogram(h, tokens)
  {
    for i := 0 to vector.Length
      invariant forall k :: 0 <= k < i ==> vector[k] == 0.0
    {
      vector[i] := 0.0;
    }
    assert tokens[..0] == [];
    for t := 0 to |tokens|
      invariant vector[..] == Histogram(h, tokens[..t])
    {
      assert tokens[..t + 1][..t] == tokens[..t];
      var i := h.Bucket(tokens[t]);
      vector[i] := vector[i] + 1.0;
    }
    assert tokens[..|tokens|] == tokens;
  }

  /** `embed`; `m` is the square root `sqrt` returns. */
  method EmbedText(h: Hashing, text: string, m: real) returns (v: seq<real>)
    requires h.Valid() && Root(m, SumSq(Histogram(h, TokensOf(text))))
    ensures v == Embed(h, text, m) && IsEmbedding(h, text, v)
  {
    var vector := new real[h.dimensions];
    CountTokens(h, TokensOf(text), vector);
    v := Scaled(vector[..], Divisor(m));
  }

  lemma EmbeddingsUnique(h: Hashing, text: string, v: seq<real>, w: seq<real>)
    requires h.Valid() && IsEmbedding(h, text, v) && IsEmbedding(h, text, w)
    ensures v == w
  {
    var x := SumSq(Histogram(h, TokensOf(text)));
    var m :| Root(m, x) && v == Embed(h, text, m);
    var n :| Root(n, x) && w == Embed(h, text, n);
    RootUnique(m, n, x);
  }

  lemma {:induction false} EmbeddingShape(h: Hashing, text: string, v: seq<real>)
    requires h.Valid() && IsEmbedding(h, text, v)
    ensures |v| == h.dimensions && NoNegative(v)
    ensures SumSq(v) == if TokensOf(text) == [] then 0.0 else 1.0
  {
    var counts := Histogram(h, TokensOf(text));
    var m :| Root(m, SumSq(counts)) && v == Embed(h, text, m);
    Normalized(counts, m);
    BlankIsZero(h, TokensOf(text));
    HistogramNoNegative(h, TokensOf(text));
    forall i | 0 <= i < |v| ensures v[i] >= 0.0 { QuotientNonneg(counts[i], Divisor(m)); }
  }

  lemma QuotientNonneg(x: real, m: real)
    requires x >= 0.0 && m > 0.0
    ensures x / m >= 0.0
  {
  }

  /** Scores lie in [0, 1]; a text scores 1 against itself unless it is blank, and 1 means the same embedding. */
  lemma {:induction false} ScoresOfTexts(h: Hashing, query: string, text: string, v: seq<real>, w: seq<real>)
    requires h.Valid() && IsEmbedding(h, query, v) && IsEmbedding(h, text, w)
    ensures 0.0 <= Dot(v, w) <= 1.0
    ensures Dot(v, w) == 1.0 <==> v == w && TokensOf(query) != []
    ensures query == text && TokensOf(query) != [] ==> Dot(v, w) == 1.0
  {
    EmbeddingShape(h, query, v);
    EmbeddingShape(h, text, w);
    ScoreBounds(v, w);
    if query == text { EmbeddingsUnique(h, query, v, w); }
    hide IsEmbedding, TokensOf, Dot, SumSq;
  }
}
