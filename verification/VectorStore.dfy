/** The in-memory vector store (backend/memory.py): search filtered by tenant, ranked by score, cut to `top_k`. */
module VectorStore {
  import opened Wrappers
  import opened Embedding
  import Sorting

  datatype Record = Record(
    id: string, org: string, workspace: string, namespace: string, text: string, embedding: seq<real>)

  datatype Hit = Hit(record: Record, score: real)

  datatype Scope = Scope(org: string, workspace: string, namespace: Option<string>)

  predicate InScope(r: Record, scope: Scope) {
    r.org == scope.org && r.workspace == scope.workspace
    && (scope.namespace == None || scope.namespace == Some(r.namespace))
  }

  function Candidates(records: seq<Record>, scope: Scope): seq<Record> {
    if records == [] then []
    else
      var last := records[|records| - 1];
      Candidates(records[..|records| - 1], scope) + (if InScope(last, scope) then [last] else [])
  }

  function HitsOf(query: seq<real>, candidates: seq<Record>): (hits: seq<Hit>)
    ensures |hits| == |candidates|
    ensures forall i :: 0 <= i < |hits| ==> hits[i] == Hit(candidates[i], Dot(query, candidates[i].embedding))
  {
    seq(|candidates|, i requires 0 <= i < |candidates| => Hit(candidates[i], Dot(query, candidates[i].embedding)))
  }

  /** Ascending order of this is descending order of the score. */
  function Rank(h: Hit): real { -h.score }

  function Ranked(query: seq<real>, records: seq<Record>, scope: Scope): seq<Hit> {
    Sorting.SortBy(Rank, HitsOf(query, Candidates(records, scope)))
  }

  function Found(query: seq<real>, records: seq<Record>, scope: Scope, topK: int): seq<Hit> {
    Sorting.Take(Ranked(query, records, scope), topK)
  }

  /** Every record carries the embedding of its own text. */
  ghost predicate Embedded(h: Hashing, records: seq<Record>)
    requires h.Valid()
  {
    forall i :: 0 <= i < |records| ==> IsEmbedding(h, records[i].text, records[i].embedding)
  }

  lemma {:induction false} CandidatesAre(records: seq<Record>, scope: Scope)
    ensures forall r :: r in Candidates(records, scope) <==> r in records && InScope(r, scope)
  {
    if records != [] {
      CandidatesAre(records[..|records| - 1], scope);
      assert records == records[..|records| - 1] + [records[|records| - 1]];
      hide InScope;
    }
  }

  /** The ranking is the records in scope, each once with its score against the query, best first and equals in
      insertion order. */
  lemma {:induction false} RankedAre(query: seq<real>, records: seq<Record>, scope: Scope)
    ensures var ranked, hits := Ranked(query, records, scope), HitsOf(query, Candidates(records, scope));
      && multiset(ranked) == multiset(hits) && |ranked| == |hits|
      && (forall i, j :: 0 <= i < j < |ranked| ==> ranked[i].score >= ranked[j].score)
      && (forall score :: Sorting.WithKey(Rank, score, ranked) == Sorting.WithKey(Rank, score, hits))
      && (forall h :: h in ranked <==> h.record in records && InScope(h.record, scope)
                                       && h.score == Dot(query, h.record.embedding))
  {
    var hits, candidates := HitsOf(query, Candidates(records, scope)), Candidates(records, scope);
    Sorting.SortSorts(Rank, hits);
    Sorting.SortMembers(Rank, hits);
    forall score
      ensures Sorting.WithKey(Rank, score, Sorting.SortBy(Rank, hits)) == Sorting.WithKey(Rank, score, hits)
    {
      Sorting.SortStable(Rank, hits, score);
    }
    CandidatesAre(records, scope);
    var ranked := Ranked(query, records, scope);
    assert forall i, j :: 0 <= i < j < |ranked| ==> Rank(ranked[i]) <= Rank(ranked[j]);
    hide Sorting.WithKey, Sorting.SortBy, Candidates, InScope, Dot;
    forall h ensures h in hits <==> h.record in candidates && h.score == Dot(query, h.record.embedding) {
      if h.record in candidates && h.score == Dot(query, h.record.embedding) {
        var i :| 0 <= i < |candidates| && candidates[i] == h.record;
        assert hits[i] == h;
      }
    }
  }

  lemma RankedHit(h: Hashing, text: string, query: seq<real>, records: seq<Record>, scope: Scope, i: nat)
    requires h.Valid() && Embedded(h, records) && IsEmbedding(h, text, query)
    requires i < |Ranked(query, records, scope)|
    ensures var hit := Ranked(query, records, scope)[i];
      hit.record in records && InScope(hit.record, scope) && 0.0 <= hit.score <= 1.0
  {
    hide Ranked, InScope, Dot, Candidates, HitsOf, IsEmbedding, TokensOf, Sorting.WithKey;
    var hit := Ranked(query, records, scope)[i];
    RankedAre(query, records, scope);
    assert hit in Ranked(query, records, scope);
    ScoresOfTexts(h, text, hit.record.text, query, hit.record.embedding);
  }

  /** A stored text that is the query itself, if not blank, puts a score of 1 on top of whatever is returned. */
  lemma ExactOnTop(
    h: Hashing, text: string, query: seq<real>, records: seq<Record>, scope: Scope, topK: int, r: Record)
    requires h.Valid() && Embedded(h, records) && IsEmbedding(h, text, query)
    requires TokensOf(text) != [] && r in records && InScope(r, scope) && r.text == text && topK >= 1
    ensures Found(query, records, scope, topK) != [] && Found(query, records, scope, topK)[0].score == 1.0
  {
    hide Ranked, InScope, Dot, Candidates, HitsOf, IsEmbedding, TokensOf, Sorting.WithKey;
    var ranked := Ranked(query, records, scope);
    RankedAre(query, records, scope);
    ScoresOfTexts(h, text, text, query, r.embedding);
    assert Hit(r, 1.0) in ranked;
    var k :| 0 <= k < |ranked| && ranked[k] == Hit(r, 1.0);
    RankedHit(h, text, query, records, scope, 0);
  }

  lemma RankedOrder(query: seq<real>, records: seq<Record>, scope: Scope, i: nat, j: nat)
    requires i < j < |Ranked(query, records, scope)|
    ensures Ranked(query, records, scope)[i].score >= Ranked(query, records, scope)[j].score
  {
    hide Ranked;
    RankedAre(query, records, scope);
  }

  /** What a search returns: the first of the ranked records in scope. Every score lies in [0, 1], and nothing left out
      beats anything returned. */
  lemma SearchFinds(h: Hashing, text: string, query: seq<real>, records: seq<Record>, scope: Scope, topK: int)
    requires h.Valid() && Embedded(h, records) && IsEmbedding(h, text, query)
    ensures var found, ranked := Found(query, records, scope, topK), Ranked(query, records, scope);
      && found <= ranked
      && (forall i :: 0 <= i < |found| ==>
            found[i].record in records && InScope(found[i].record, scope) && 0.0 <= found[i].score <= 1.0)
      && (forall i, j :: 0 <= i < |found| && i < j < |ranked| ==> found[i].score >= ranked[j].score)
  {
    hide Ranked, InScope, Dot, Candidates, HitsOf, IsEmbedding, TokensOf, Embedded;
    var found, ranked := Found(query, records, scope, topK), Ranked(query, records, scope);
    forall i | 0 <= i < |ranked|
      ensures ranked[i].record in records && InScope(ranked[i].record, scope) && 0.0 <= ranked[i].score <= 1.0
    {
      RankedHit(h, text, query, records, scope, i);
    }
    forall i, j | 0 <= i < |found| && i < j < |ranked| ensures found[i].score >= ranked[j].score {
      RankedOrder(query, records, scope, i, j);
    }
  }

  class InMemoryVectorMemoryStore {
    const hashing: Hashing
    var records: seq<Record>

    ghost predicate Valid()
      reads this
    {
      hashing.Valid() && Embedded(hashing, records)
      && forall i, j :: 0 <= i < j < |records| ==> records[i].id != records[j].id
    }

    constructor (hashing: Hashing)
      requires hashing.Valid()
      ensures Valid() && records == [] && this.hashing == hashing
    {
      this.hashing, records := hashing, [];
    }

    /** `id` is the fresh id drawn, `m` the square root taken. */
    method Upsert(id: string, org: string, workspace: string, namespace: string, text: string, m: real)
      returns (record: Record)
      requires Valid() && forall r :: r in records ==> r.id != id
      requires Embedding.Root(m, SumSq(Histogram(hashing, TokensOf(text))))
      modifies this`records
      ensures Valid() && records == old(records) + [record]
      ensures record == Record(id, org, workspace, namespace, text, Embed(hashing, text, m))
    {
      var embedding := EmbedText(hashing, text, m);
      record := Record(id, org, workspace, namespace, text, embedding);
      records := records + [record];
    }

    method Search(query: string, m: real, scope: Scope, topK: int) returns (hits: seq<Hit>)
      requires Valid() && Embedding.Root(m, SumSq(Histogram(hashing, TokensOf(query))))
      ensures hits == Found(Embed(hashing, query, m), records, scope, topK)
      ensures forall i :: 0 <= i < |hits| ==> InScope(hits[i].record, scope) && 0.0 <= hits[i].score <= 1.0
    {
      var embedding := EmbedText(hashing, query, m);
      var candidates := Candidates(records, scope);
      var results := HitsOf(embedding, candidates);
      hits := Sorting.Take(Sorting.SortBy(Rank, results), topK);
      SearchFinds(hashing, query, embedding, records, scope, topK);
    }
  }
}
