/**
 Weighted fusion of vector and full-text hits (app/search/engine.py:110-160, 357-376).

 The two candidate lists are whatever the vector store and the database returned.
 Scores are reals, and Round6 rounds those that are displayed.
 */
module Fusion {
  import opened Prelude

  datatype Hit = Hit(id: string, score: real)

  datatype Weights = Weights(vector: real, lexical: real)

  // ---- What a candidate scores ---------------------------------------------

  function Ids(hits: seq<Hit>): set<string> {
    set h | h in hits :: h.id
  }

  /** The last hit with the id counts, as in an assignment to a dictionary; 0 if absent. */
  function LastScore(hits: seq<Hit>, id: string): real {
    if hits == [] then 0.0
    else if hits[|hits| - 1].id == id then hits[|hits| - 1].score
    else LastScore(hits[..|hits| - 1], id)
  }

  function Scaled(weight: real, x: real): real {
    weight * x
  }

  /** Ranks of the rows with the id, added up; 0 if absent. */
  function RankSum(rows: seq<Hit>, id: string): real {
    if rows == [] then 0.0
    else RankSum(rows[..|rows| - 1], id) + if rows[|rows| - 1].id == id then rows[|rows| - 1].score else 0.0
  }

  /** How good a candidate is in each of the two lists. */
  datatype Standing = Standing(vector: real, lexical: real)

  function StandingOf(hits: seq<Hit>, rows: seq<Hit>, id: string): Standing {
    Standing(LastScore(hits, id), RankSum(rows, id))
  }

  function Fused(w: Weights, s: Standing): real {
    Scaled(w.vector, s.vector) + Scaled(w.lexical, s.lexical)
  }

  /** x is the weighted sum of a vector score and a full-text rank. */
  predicate Weighs(x: real, w: Weights, score: real, rank: real) {
    x == w.vector * score + w.lexical * rank
  }

  lemma FusedWeighs(w: Weights, s: Standing)
    ensures Weighs(Fused(w, s), w, s.vector, s.lexical)
  {
  }

  /** What counts of the vector hits is the last one with the id. */
  lemma {:induction false} LastScoreIs(hits: seq<Hit>, i: nat, id: string)
    requires i < |hits| && hits[i].id == id && forall j | i < j < |hits| :: hits[j].id != id
    ensures LastScore(hits, id) == hits[i].score
  {
    if i < |hits| - 1 {
      LastScoreIs(hits[..|hits| - 1], i, id);
    }
  }

  /** Ranks add up over the rows; other ids add nothing. */
  lemma {:induction false} RanksAddUp(a: seq<Hit>, b: seq<Hit>, id: string)
    ensures RankSum(a + b, id) == RankSum(a, id) + RankSum(b, id)
  {
    if b == [] {
      assert a + b == a;
    } else {
      assert (a + b)[..|a + b| - 1] == a + b[..|b| - 1];
      RanksAddUp(a, b[..|b| - 1], id);
    }
  }

  /** A candidate of the vector list alone scores its weighted score, one that only a single
      row of the full-text list has its weighted rank. */
  lemma OneListAlone(w: Weights, hits: seq<Hit>, rows: seq<Hit>, i: nat, id: string)
    ensures i < |hits| && hits[i].id == id && (forall j | i < j < |hits| :: hits[j].id != id)
            && (forall r | r in rows :: r.id != id) ==>
      Fused(w, StandingOf(hits, rows, id)) == w.vector * hits[i].score
    ensures i < |rows| && rows[i].id == id && (forall j | 0 <= j < |rows| && j != i :: rows[j].id != id)
            && (forall h | h in hits :: h.id != id) ==>
      Fused(w, StandingOf(hits, rows, id)) == w.lexical * rows[i].score
  {
    if i < |hits| && hits[i].id == id && forall j | i < j < |hits| :: hits[j].id != id {
      LastScoreIs(hits, i, id);
    }
    if forall h | h in hits :: h.id != id {
      AbsentScoresZero(hits, id);
    }
    if forall r | r in rows :: r.id != id {
      AbsentRanksZero(rows, id);
    }
    if i < |rows| && rows[i].id == id && forall j | 0 <= j < |rows| && j != i :: rows[j].id != id {
      SingleRank(rows, i, id);
    }
  }

  lemma SingleRank(rows: seq<Hit>, i: nat, id: string)
    requires i < |rows| && rows[i].id == id && forall j | 0 <= j < |rows| && j != i :: rows[j].id != id
    ensures RankSum(rows, id) == rows[i].score
  {
    var before, one, after := rows[..i], [rows[i]], rows[i + 1..];
    assert rows == before + one + after && one[..0] == [];
    RanksAddUp(before + one, after, id);
    RanksAddUp(before, one, id);
    AbsentRanksZero(before, id);
    AbsentRanksZero(after, id);
    assert RankSum(one, id) == RankSum([], id) + one[0].score;
  }

  /** A candidate at least as good in both lists scores no lower. */
  lemma FusionIsMonotone(w: Weights, a: Standing, b: Standing)
    requires w.vector >= 0.0 && w.lexical >= 0.0
    requires a.vector >= b.vector && a.lexical >= b.lexical
    ensures Fused(w, a) >= Fused(w, b)
  {
    assert w.vector * (a.vector - b.vector) >= 0.0;
    assert w.lexical * (a.lexical - b.lexical) >= 0.0;
  }

  // ---- sorted(..., reverse=True) -------------------------------------------

  predicate Distinct(s: seq<string>) {
    forall i, j | 0 <= i < j < |s| :: s[i] != s[j]
  }

  predicate Descending(s: seq<string>, score: map<string, real>) {
    && (forall x | x in s :: x in score)
    && forall i, j | 0 <= i < j < |s| :: score[s[i]] >= score[s[j]]
  }

  /** The position behind all elements that score at least as much: ties keep their order. */
  function Position(s: seq<string>, x: string, score: map<string, real>): (p: nat)
    requires x in score && Descending(s, score)
    ensures p <= |s|
    ensures forall i | 0 <= i < p :: score[s[i]] >= score[x]
    ensures forall i | p <= i < |s| :: score[s[i]] < score[x]
  {
    if s == [] then 0
    else if score[s[|s| - 1]] >= score[x] then |s|
    else Position(s[..|s| - 1], x, score)
  }

  /** s with x at position p. */
  function Inserted(s: seq<string>, p: nat, x: string): (r: seq<string>)
    requires p <= |s|
    ensures multiset(r) == multiset(s + [x])
  {
    assert s == s[..p] + s[p..];
    s[..p] + [x] + s[p..]
  }

  lemma InsertedDescends(s: seq<string>, x: string, score: map<string, real>)
    requires x in score && Descending(s, score)
    ensures Descending(Inserted(s, Position(s, x, score), x), score)
  {
    var p := Position(s, x, score);
    var a, b := s[..p], s[p..];
    assert forall i | 0 <= i < |a| :: a[i] == s[i];
    assert forall i | 0 <= i < |b| :: b[i] == s[p + i];
    assert Descending(a + [x], score);
    JoinedDescend(a + [x], b, score);
  }

  lemma JoinedDescend(a: seq<string>, b: seq<string>, score: map<string, real>)
    requires Descending(a, score) && Descending(b, score)
    requires a != [] && forall i | 0 <= i < |b| :: score[b[i]] <= score[a[|a| - 1]]
    ensures Descending(a + b, score)
  {
  }

  /** A stable descending sort, one element at a time. */
  function SortedBy(keys: seq<string>, score: map<string, real>): (r: seq<string>)
    requires forall x | x in keys :: x in score
    ensures Descending(r, score)
    ensures multiset(r) == multiset(keys)
  {
    if keys == [] then []
    else
      var init, x := keys[..|keys| - 1], keys[|keys| - 1];
      assert keys == init + [x];
      var s := SortedBy(init, score);
      InsertedDescends(s, x, score);
      Inserted(s, Position(s, x, score), x)
  }

  /** Elements that score the same appear in the order they came in. */
  lemma {:induction false} SortIsStable(keys: seq<string>, score: map<string, real>, v: real)
    requires forall x | x in keys :: x in score
    ensures WithScore(SortedBy(keys, score), score, v) == WithScore(keys, score, v)
  {
    if keys != [] {
      var init, x := keys[..|keys| - 1], keys[|keys| - 1];
      assert keys == init + [x];
      SortIsStable(init, score, v);
      AppendedAgree(SortedBy(init, score), init, x, score, v);
      SortedStep(init, x, score, v);
    }
  }

  lemma SortedStep(init: seq<string>, x: string, score: map<string, real>, v: real)
    requires forall y | y in init + [x] :: y in score
    ensures WithScore(SortedBy(init + [x], score), score, v) == WithScore(SortedBy(init, score) + [x], score, v)
  {
    assert (init + [x])[..|init|] == init;
    InsertedIsStable(SortedBy(init, score), x, score, v);
  }

  lemma AppendedAgree(s: seq<string>, t: seq<string>, x: string, score: map<string, real>, v: real)
    requires WithScore(s, score, v) == WithScore(t, score, v)
    ensures WithScore(s + [x], score, v) == WithScore(t + [x], score, v)
  {
    WithScoreConcat(s, [x], score, v);
    WithScoreConcat(t, [x], score, v);
  }

  lemma InsertedIsStable(s: seq<string>, x: string, score: map<string, real>, v: real)
    requires x in score && Descending(s, score)
    ensures WithScore(Inserted(s, Position(s, x, score), x), score, v) == WithScore(s + [x], score, v)
  {
    var p := Position(s, x, score);
    assert forall i | p <= i < |s| :: score[s[i]] < score[x];
    MovedPastOthers(s[..p], s[p..], x, score, v);
    assert s[..p] + s[p..] == s;
  }

  /** x and the lower-scoring b can swap places. */
  lemma MovedPastOthers(a: seq<string>, b: seq<string>, x: string, score: map<string, real>, v: real)
    requires x in score && forall y | y in b :: y in score && score[y] < score[x]
    ensures WithScore(a + [x] + b, score, v) == WithScore(a + b + [x], score, v)
  {
    WithScoreOfThree(a, [x], b, score, v);
    WithScoreOfThree(a, b, [x], score, v);
    if score[x] == v {
      NoneWithScore(b, score, v);
    } else {
      assert WithScore([x], score, v) == [];
    }
  }

  lemma WithScoreOfThree(a: seq<string>, b: seq<string>, c: seq<string>, score: map<string, real>, v: real)
    ensures WithScore(a + b + c, score, v) == WithScore(a, score, v) + WithScore(b, score, v) + WithScore(c, score, v)
  {
    WithScoreConcat(a, b, score, v);
    WithScoreConcat(a + b, c, score, v);
  }

  function WithScore(s: seq<string>, score: map<string, real>, v: real): seq<string> {
    if s == [] then []
    else
      WithScore(s[..|s| - 1], score, v) + if s[|s| - 1] in score && score[s[|s| - 1]] == v then [s[|s| - 1]] else []
  }

  /** Those are the elements with the score, in order. */
  lemma {:induction false} WithScoreAre(s: seq<string>, score: map<string, real>, v: real) returns (at: seq<nat>)
    ensures Picks(s, WithScore(s, score, v), (x: string) => x in score && score[x] == v, (x: string) => x, at)
  {
    at := [];
    if s != [] {
      var init, last := s[..|s| - 1], s[|s| - 1];
      assert s == init + [last];
      at := WithScoreAre(init, score, v);
      OneMorePicked(init, last, WithScore(init, score, v), (x: string) => x in score && score[x] == v,
                    (x: string) => x, at);
      at := if last in score && score[last] == v then at + [|init|] else at;
    }
  }

  lemma {:induction false} WithScoreConcat(a: seq<string>, b: seq<string>, score: map<string, real>, v: real)
    ensures WithScore(a + b, score, v) == WithScore(a, score, v) + WithScore(b, score, v)
  {
    if b == [] {
      assert a + b == a;
    } else {
      assert (a + b)[..|a + b| - 1] == a + b[..|b| - 1];
      WithScoreConcat(a, b[..|b| - 1], score, v);
    }
  }

  lemma {:induction false} NoneWithScore(s: seq<string>, score: map<string, real>, v: real)
    requires forall x | x in s :: x in score && score[x] < v
    ensures WithScore(s, score, v) == []
  {
    if s != [] {
      assert s[|s| - 1] in s;
      NoneWithScore(s[..|s| - 1], score, v);
    }
  }

  // ---- The selection -------------------------------------------------------

  /** A dictionary that remembers the order in which its keys came. */
  datatype Dict = Dict(at: map<string, real>, order: seq<string>) {
    ghost predicate Valid() {
      Lists(order, at.Keys)
    }

    function Put(id: string, x: real): (d: Dict)
      ensures d.at == at[id := x]
    {
      Dict(at[id := x], if id in at then order else order + [id])
    }

    function Get(id: string): real {
      if id in at then at[id] else 0.0
    }
  }

  /** order holds every key once. */
  ghost predicate Lists(order: seq<string>, keys: set<string>) {
    Distinct(order) && forall id :: id in order <==> id in keys
  }

  /** ids are topK candidates, or all if there are fewer, in order of their weighted sum,
      and none of the others has a greater one. */
  ghost predicate IsTopK(ids: seq<string>, hits: seq<Hit>, rows: seq<Hit>, w: Weights, topK: nat) {
    var all := Ids(hits) + Ids(rows);
    && Distinct(ids) && (forall id | id in ids :: id in all)
    && |ids| == (if topK <= |all| then topK else |all|)
    && (forall i, j | 0 <= i < j < |ids| ::
      Fused(w, StandingOf(hits, rows, ids[i])) >= Fused(w, StandingOf(hits, rows, ids[j])))
    && forall out, id | out in all && out !in ids && id in ids ::
      Fused(w, StandingOf(hits, rows, out)) <= Fused(w, StandingOf(hits, rows, id))
  }

  lemma SelectionIsTopK(ids: seq<string>, scores: map<string, real>, hits: seq<Hit>, rows: seq<Hit>, w: Weights,
                        topK: nat)
    requires scores.Keys == Ids(hits) + Ids(rows)
    requires forall id | id in scores :: scores[id] == Fused(w, StandingOf(hits, rows, id))
    requires Distinct(ids) && Descending(ids, scores) && |ids| == if topK <= |scores| then topK else |scores|
    requires forall out, id | out in scores && out !in ids && id in ids :: scores[out] <= scores[id]
    ensures IsTopK(ids, hits, rows, w, topK)
  {
    assert |scores| == |Ids(hits) + Ids(rows)|;
    forall i, j | 0 <= i < j < |ids|
      ensures Fused(w, StandingOf(hits, rows, ids[i])) >= Fused(w, StandingOf(hits, rows, ids[j]))
    {
      assert ids[i] in scores && ids[j] in scores && scores[ids[i]] >= scores[ids[j]];
    }
  }

  /** Score every candidate, sort, keep the first topK. */
  method Select(hits: seq<Hit>, rows: seq<Hit>, w: Weights, topK: nat)
    returns (ids: seq<string>, scores: map<string, real>)
    ensures scores.Keys == Ids(hits) + Ids(rows)
    ensures forall id | id in scores :: Weighs(scores[id], w, LastScore(hits, id), RankSum(rows, id))
    ensures forall id | id in scores :: scores[id] == Fused(w, StandingOf(hits, rows, id))
    ensures Distinct(ids) && Descending(ids, scores)
    ensures |ids| == if topK <= |scores| then topK else |scores|
    ensures forall out, id | out in scores && out !in ids && id in ids :: scores[out] <= scores[id]
    ensures IsTopK(ids, hits, rows, w, topK)
  {
    var dict := Score(hits, rows, w);
    ScoresAreFused(hits, rows, w);
    ScoresAreValid(hits, rows, w);
    scores := dict.at;
    ids := First(dict, topK);
    SelectionIsTopK(ids, scores, hits, rows, w, topK);
    ScoresWeigh(scores, hits, rows, w);
  }

  lemma ScoresWeigh(scores: map<string, real>, hits: seq<Hit>, rows: seq<Hit>, w: Weights)
    requires forall id | id in scores :: scores[id] == Fused(w, StandingOf(hits, rows, id))
    ensures forall id | id in scores :: Weighs(scores[id], w, LastScore(hits, id), RankSum(rows, id))
  {
    forall id | id in scores ensures Weighs(scores[id], w, LastScore(hits, id), RankSum(rows, id)) {
      FusedWeighs(w, StandingOf(hits, rows, id));
    }
  }

  /** sorted(scores.items(), ..., reverse=True)[:topK] */
  method First(dict: Dict, topK: nat) returns (ids: seq<string>)
    requires dict.Valid()
    ensures Distinct(ids) && Descending(ids, dict.at)
    ensures |ids| == if topK <= |dict.at| then topK else |dict.at|
    ensures forall out, id | out in dict.at && out !in ids && id in ids :: dict.at[out] <= dict.at[id]
  {
    var sorted := SortedBy(dict.order, dict.at);
    SortingKeepsKeys(dict.order, sorted, dict.at);
    var n := if topK <= |sorted| then topK else |sorted|;
    ids := sorted[..n];
    PrefixIsBest(sorted, n, dict.at);
  }

  /** The dictionary of scores: vector hits are assigned, full-text ranks added. */
  method Score(hits: seq<Hit>, rows: seq<Hit>, w: Weights) returns (dict: Dict)
    ensures dict == Scores(hits, rows, w)
  {
    dict := Dict(map[], []);
    for i := 0 to |hits|
      invariant dict == HitScores(hits[..i], w)
    {
      assert hits[..i + 1] == hits[..i] + [hits[i]];
      OneMoreHit(hits[..i], hits[i], w);
      dict := dict.Put(hits[i].id, Scaled(w.vector, hits[i].score));
    }
    assert hits[..|hits|] == hits;
    for i := 0 to |rows|
      invariant dict == Scores(hits, rows[..i], w)
    {
      assert rows[..i + 1] == rows[..i] + [rows[i]];
      OneMoreRow(hits, rows[..i], rows[i], w);
      dict := dict.Put(rows[i].id, dict.Get(rows[i].id) + Scaled(w.lexical, rows[i].score));
    }
    assert rows[..|rows|] == rows;
  }

  function HitScores(hits: seq<Hit>, w: Weights): Dict
  {
    if hits == [] then Dict(map[], [])
    else
      var h := hits[|hits| - 1];
      HitScores(hits[..|hits| - 1], w).Put(h.id, Scaled(w.vector, h.score))
  }

  function Scores(hits: seq<Hit>, rows: seq<Hit>, w: Weights): Dict
  {
    if rows == [] then HitScores(hits, w)
    else
      var before, r := Scores(hits, rows[..|rows| - 1], w), rows[|rows| - 1];
      before.Put(r.id, before.Get(r.id) + Scaled(w.lexical, r.score))
  }

  lemma OneMoreHit(hits: seq<Hit>, h: Hit, w: Weights)
    ensures HitScores(hits + [h], w) == HitScores(hits, w).Put(h.id, Scaled(w.vector, h.score))
  {
    assert (hits + [h])[..|hits|] == hits;
  }

  lemma OneMoreRow(hits: seq<Hit>, rows: seq<Hit>, r: Hit, w: Weights)
    ensures var before := Scores(hits, rows, w);
      Scores(hits, rows + [r], w) == before.Put(r.id, before.Get(r.id) + Scaled(w.lexical, r.score))
  {
    assert (rows + [r])[..|rows|] == rows;
  }

  lemma PutKeepsValid(d: Dict, id: string, x: real)
    requires d.Valid()
    ensures d.Put(id, x).Valid()
  {
  }

  lemma {:induction false} ScoresAreValid(hits: seq<Hit>, rows: seq<Hit>, w: Weights)
    ensures Scores(hits, rows, w).Valid()
    decreases |hits| + |rows|
  {
    if rows != [] {
      var init, r := rows[..|rows| - 1], rows[|rows| - 1];
      ScoresAreValid(hits, init, w);
      var before := Scores(hits, init, w);
      PutKeepsValid(before, r.id, before.Get(r.id) + Scaled(w.lexical, r.score));
    } else if hits != [] {
      var init, h := hits[..|hits| - 1], hits[|hits| - 1];
      ScoresAreValid(init, rows, w);
      PutKeepsValid(HitScores(init, w), h.id, Scaled(w.vector, h.score));
    }
  }

  lemma {:induction false} HitsAreScored(hits: seq<Hit>, w: Weights)
    ensures HitScores(hits, w).at.Keys == Ids(hits)
    ensures forall id | id in Ids(hits) :: HitScores(hits, w).at[id] == Scaled(w.vector, LastScore(hits, id))
  {
    if hits != [] {
      var init, h := hits[..|hits| - 1], hits[|hits| - 1];
      HitsAreScored(init, w);
      OneMoreId(init, h);
      assert hits == init + [h];
    }
  }

  /** Exactly the candidates of the two lists are scored, each with its weighted sum. */
  lemma {:induction false} ScoresAreFused(hits: seq<Hit>, rows: seq<Hit>, w: Weights)
    ensures Scores(hits, rows, w).at.Keys == Ids(hits) + Ids(rows)
    ensures forall id | id in Ids(hits) + Ids(rows) ::
      Scores(hits, rows, w).at[id] == Fused(w, StandingOf(hits, rows, id))
  {
    if rows == [] {
      HitsAreScored(hits, w);
    } else {
      var init, r := rows[..|rows| - 1], rows[|rows| - 1];
      ScoresAreFused(hits, init, w);
      OneMoreId(init, r);
      assert rows == init + [r];
      forall id | id in Ids(hits) + Ids(rows)
        ensures Scores(hits, rows, w).at[id] == Fused(w, StandingOf(hits, rows, id))
      {
        AnotherRow(hits, init, r, w, id, Scores(hits, init, w));
      }
    }
  }

  lemma AnotherRow(hits: seq<Hit>, rows: seq<Hit>, r: Hit, w: Weights, id: string, before: Dict)
    requires id in before.at ==> before.at[id] == Fused(w, StandingOf(hits, rows, id))
    requires id !in before.at ==> id !in Ids(hits) + Ids(rows)
    ensures before.Get(id) + (if id == r.id then Scaled(w.lexical, r.score) else 0.0) ==
      Fused(w, StandingOf(hits, rows + [r], id))
  {
    assert (rows + [r])[..|rows|] == rows;
    if id !in before.at {
      AbsentScoresZero(hits, id);
      AbsentRanksZero(rows, id);
    }
    Distributes(w, StandingOf(hits, rows, id), r.score);
  }

  lemma Distributes(w: Weights, s: Standing, x: real)
    ensures Fused(w, Standing(s.vector, s.lexical + x)) == Fused(w, s) + Scaled(w.lexical, x)
  {
  }

  lemma OneMoreId(hits: seq<Hit>, h: Hit)
    ensures Ids(hits + [h]) == Ids(hits) + {h.id}
  {
    assert h in hits + [h];
    assert forall x | x in hits :: x in hits + [h];
  }

  lemma {:induction false} AbsentScoresZero(hits: seq<Hit>, id: string)
    requires id !in Ids(hits)
    ensures LastScore(hits, id) == 0.0
  {
    if hits != [] {
      assert hits[|hits| - 1] in hits;
      AbsentScoresZero(hits[..|hits| - 1], id);
    }
  }

  lemma {:induction false} AbsentRanksZero(rows: seq<Hit>, id: string)
    requires id !in Ids(rows)
    ensures RankSum(rows, id) == 0.0
  {
    if rows != [] {
      assert rows[|rows| - 1] in rows;
      AbsentRanksZero(rows[..|rows| - 1], id);
    }
  }

  lemma SortingKeepsKeys(order: seq<string>, sorted: seq<string>, scores: map<string, real>)
    requires Lists(order, scores.Keys) && multiset(sorted) == multiset(order)
    ensures Lists(sorted, scores.Keys) && |sorted| == |scores|
  {
    DistinctByCount(order);
    DistinctByCount(sorted);
    assert forall id :: (id in sorted <==> id in multiset(sorted)) && (id in order <==> id in multiset(order));
    DistinctSize(sorted, scores.Keys);
  }

  lemma PrefixIsBest(sorted: seq<string>, n: nat, scores: map<string, real>)
    requires Lists(sorted, scores.Keys) && Descending(sorted, scores) && n <= |sorted|
    ensures var ids := sorted[..n];
      && Distinct(ids) && Descending(ids, scores)
      && forall out, id | out in scores && out !in ids && id in ids :: scores[out] <= scores[id]
  {
    var ids := sorted[..n];
    forall out, id | out in scores && out !in ids && id in ids ensures scores[out] <= scores[id] {
      assert out in sorted;
      TheRestIsNoBetter(sorted, n, scores, out, id);
    }
  }

  lemma TheRestIsNoBetter(sorted: seq<string>, n: nat, scores: map<string, real>, out: string, id: string)
    requires Descending(sorted, scores) && n <= |sorted|
    requires id in sorted[..n] && out in sorted && out !in sorted[..n]
    ensures scores[out] <= scores[id]
  {
    assert forall q | 0 <= q < n :: sorted[..n][q] == sorted[q];
    assert forall q | 0 <= q < n :: sorted[q] in sorted[..n];
    var i :| 0 <= i < n && sorted[i] == id;
    var j :| 0 <= j < |sorted| && sorted[j] == out;
  }

  lemma {:induction false} DistinctByCount(s: seq<string>)
    ensures Distinct(s) <==> forall x | x in s :: multiset(s)[x] == 1
  {
    if s != [] {
      var init, last := s[..|s| - 1], s[|s| - 1];
      assert s == init + [last];
      DistinctByCount(init);
      assert forall x :: multiset(s)[x] == multiset(init)[x] + if x == last then 1 else 0;
      assert last in init <==> multiset(init)[last] > 0;
      if last in init {
        var i :| 0 <= i < |init| && init[i] == last;
        assert s[i] == s[|s| - 1];
      }
      assert forall x | x in init :: x in s;
      assert Distinct(s) <==> Distinct(init) && last !in init;
    }
  }

  lemma {:induction false} DistinctSize(s: seq<string>, keys: set<string>)
    requires Distinct(s) && forall x :: x in s <==> x in keys
    ensures |s| == |keys|
  {
    if s != [] {
      var init, last := s[..|s| - 1], s[|s| - 1];
      assert s == init + [last];
      assert forall x :: x in init <==> x in keys - {last};
      DistinctSize(init, keys - {last});
    } else {
      assert keys == {};
    }
  }

  // ---- The scores shown ----------------------------------------------------

  /** To the nearest integer, ties to the even one. */
  function RoundHalfEven(y: real): int {
    var below := y.Floor;
    var rest := y - below as real;
    if rest < 0.5 || (rest == 0.5 && below % 2 == 0) then below else below + 1
  }

  /** round(x, 6) */
  function Round6(x: real): real {
    RoundHalfEven(x * 1000000.0) as real / 1000000.0
  }

  function Distance(a: real, b: real): real {
    if a <= b then b - a else a - b
  }

  /** A whole number of millionths, no other of which is nearer; of two that are as near it
      is the even one. */
  lemma RoundsToNearest(x: real, m: int) returns (n: int)
    ensures Round6(x) * 1000000.0 == n as real
    ensures Distance(n as real, x * 1000000.0) <= Distance(m as real, x * 1000000.0)
    ensures m != n && Distance(m as real, x * 1000000.0) == Distance(n as real, x * 1000000.0) ==> n % 2 == 0
  {
    n := RoundHalfEven(x * 1000000.0);
    NearestInteger(x * 1000000.0, m);
  }

  lemma NearestInteger(y: real, m: int)
    ensures var n := RoundHalfEven(y);
      && Distance(n as real, y) <= Distance(m as real, y)
      && (m != n && Distance(m as real, y) == Distance(n as real, y) ==> n % 2 == 0)
  {
  }

  /** Rounding keeps the order and moves a score by no more than half a millionth. */
  lemma RoundingKeepsOrder(x: real, y: real)
    requires x <= y
    ensures Round6(x) <= Round6(y)
    ensures -0.0000005 <= Round6(x) - x <= 0.0000005
  {
    RoundHalfEvenKeepsOrder(x * 1000000.0, y * 1000000.0);
  }

  lemma RoundHalfEvenKeepsOrder(x: real, y: real)
    requires x <= y
    ensures RoundHalfEven(x) <= RoundHalfEven(y)
    ensures -0.5 <= RoundHalfEven(x) as real - x <= 0.5
  {
  }

  function Rounded(scores: map<string, real>): map<string, real> {
    map id | id in scores :: Round6(scores[id])
  }

  lemma RoundedDescends(ids: seq<string>, scores: map<string, real>)
    requires Descending(ids, scores)
    ensures Descending(ids, Rounded(scores))
  {
    forall i, j | 0 <= i < j < |ids| ensures Rounded(scores)[ids[i]] >= Rounded(scores)[ids[j]] {
      RoundingKeepsOrder(scores[ids[j]], scores[ids[i]]);
    }
  }

  // ---- The rows shown ------------------------------------------------------

  datatype ChunkInfo = ChunkInfo(tenant: string, doc: string, text: string)

  datatype Result = Result(chunkId: string, doc: string, text: string, score: real)

  /** The chunk and document tables, seen by a caller of the tenant. */
  datatype Corpus = Corpus(chunks: map<string, ChunkInfo>, documents: set<string>, tenant: string) {
    /** The rows of _fetch_chunks_by_ids: the join drops chunks without a document. */
    predicate Visible(id: string) {
      id in chunks && chunks[id].tenant == tenant && chunks[id].doc in documents
    }

    function ResultFor(id: string, score: real): Result
      requires id in chunks
    {
      Result(id, chunks[id].doc, chunks[id].text, score)
    }
  }

  function ChunkIds(results: seq<Result>): seq<string> {
    if results == [] then [] else ChunkIds(results[..|results| - 1]) + [results[|results| - 1].chunkId]
  }

  /** The ids that are visible, in the same order. */
  function VisibleOf(ids: seq<string>, corpus: Corpus): seq<string> {
    if ids == [] then []
    else
      var id := ids[|ids| - 1];
      VisibleOf(ids[..|ids| - 1], corpus) + if corpus.Visible(id) then [id] else []
  }

  /** The ids of chunks of the tenant whose documents are there, and no others. */
  lemma {:induction false} VisibleAre(ids: seq<string>, corpus: Corpus) returns (at: seq<nat>)
    ensures Picks(ids, VisibleOf(ids, corpus),
                  (id: string) => id in corpus.chunks && corpus.chunks[id].tenant == corpus.tenant
                                  && corpus.chunks[id].doc in corpus.documents,
                  (id: string) => id, at)
  {
    at := [];
    if ids != [] {
      var init, last := ids[..|ids| - 1], ids[|ids| - 1];
      assert ids == init + [last];
      at := VisibleAre(init, corpus);
      OneMorePicked(init, last, VisibleOf(init, corpus),
                    (id: string) => id in corpus.chunks && corpus.chunks[id].tenant == corpus.tenant
                                    && corpus.chunks[id].doc in corpus.documents,
                    (id: string) => id, at);
      at := if corpus.Visible(last) then at + [|init|] else at;
    }
  }

  predicate Shows(results: seq<Result>, id: string) {
    exists r :: r in results && r.chunkId == id
  }

  function Shown(ids: seq<string>, scores: map<string, real>, corpus: Corpus): seq<Result>
    requires forall id | id in ids :: id in scores
  {
    if ids == [] then []
    else
      var id := ids[|ids| - 1];
      Shown(ids[..|ids| - 1], scores, corpus)
      + if corpus.Visible(id) then [corpus.ResultFor(id, scores[id])] else []
  }

  /** _hybrid_search: the selected candidates that are chunks of the tenant, best first. */
  method HybridSearch(hits: seq<Hit>, rows: seq<Hit>, w: Weights, topK: nat, corpus: Corpus)
    returns (results: seq<Result>)
    ensures |results| <= topK
    ensures forall r | r in results :: (
      && r.chunkId in Ids(hits) + Ids(rows)
      && r.chunkId in corpus.chunks && corpus.chunks[r.chunkId] == ChunkInfo(corpus.tenant, r.doc, r.text)
      && r.doc in corpus.documents
      && exists x :: Weighs(x, w, LastScore(hits, r.chunkId), RankSum(rows, r.chunkId)) && r.score == Round6(x))
    ensures exists ids :: IsTopK(ids, hits, rows, w, topK) && ChunkIds(results) == VisibleOf(ids, corpus)
    ensures forall i, j | 0 <= i < j < |results| ::
      results[i].score >= results[j].score && results[i].chunkId != results[j].chunkId
    ensures forall out, r | LeftOut(results, out, hits, rows, corpus) && r in results ::
      Round6(Fused(w, StandingOf(hits, rows, out))) <= r.score
    ensures |Ids(hits) + Ids(rows)| <= topK ==>
      forall id | id in Ids(hits) + Ids(rows) && id in corpus.chunks && corpus.chunks[id].tenant == corpus.tenant
                  && corpus.chunks[id].doc in corpus.documents :: Shows(results, id)
  {
    var ids, scores := Select(hits, rows, w, topK);
    results := Assemble(ids, scores, corpus);
    RoundedDescends(ids, scores);
    ShownFacts(ids, Rounded(scores), corpus);
    ShownIds(ids, Rounded(scores), corpus);
    LeftOutScoreNoHigher(ids, scores, hits, rows, w, corpus, results);
    if |scores| <= topK {
      AllSelected(ids, scores);
    }
    forall r | r in results
      ensures exists x :: Weighs(x, w, LastScore(hits, r.chunkId), RankSum(rows, r.chunkId)) && r.score == Round6(x)
    {
      assert Weighs(scores[r.chunkId], w, LastScore(hits, r.chunkId), RankSum(rows, r.chunkId));
    }
  }

  /** A visible candidate that is not among the results. */
  predicate LeftOut(results: seq<Result>, out: string, hits: seq<Hit>, rows: seq<Hit>, corpus: Corpus) {
    && out in Ids(hits) + Ids(rows) && !Shows(results, out)
    && out in corpus.chunks && corpus.chunks[out].tenant == corpus.tenant && corpus.chunks[out].doc in corpus.documents
  }

  /** The loop over the selected ids; chunks without a row are skipped. */
  method Assemble(ids: seq<string>, scores: map<string, real>, corpus: Corpus) returns (results: seq<Result>)
    requires forall id | id in ids :: id in scores
    ensures results == Shown(ids, Rounded(scores), corpus)
  {
    var chunkMap := map id | id in corpus.chunks && id in ids && corpus.Visible(id) :: corpus.chunks[id];
    results := [];
    for i := 0 to |ids|
      invariant results == Shown(ids[..i], Rounded(scores), corpus)
    {
      assert ids[..i + 1][..i] == ids[..i];
      var id := ids[i];
      if id in chunkMap {
        results := results + [Result(id, chunkMap[id].doc, chunkMap[id].text, Round6(scores[id]))];
      }
    }
    assert ids[..|ids|] == ids;
  }

  lemma LeftOutScoreNoHigher(ids: seq<string>, scores: map<string, real>, hits: seq<Hit>, rows: seq<Hit>, w: Weights,
                             corpus: Corpus, results: seq<Result>)
    requires scores.Keys == Ids(hits) + Ids(rows)
    requires forall id | id in scores :: scores[id] == Fused(w, StandingOf(hits, rows, id))
    requires forall id | id in ids :: id in scores
    requires forall out, id | out in scores && out !in ids && id in ids :: scores[out] <= scores[id]
    requires forall r | r in results :: r.chunkId in ids && r.chunkId in scores && r.score == Round6(scores[r.chunkId])
    requires forall id | id in ids && corpus.Visible(id) :: Shows(results, id)
    ensures forall r | r in results :: r.score == Round6(Fused(w, StandingOf(hits, rows, r.chunkId)))
    ensures forall out, r | LeftOut(results, out, hits, rows, corpus) && r in results ::
      Round6(Fused(w, StandingOf(hits, rows, out))) <= r.score
  {
    forall out, r | LeftOut(results, out, hits, rows, corpus) && r in results
      ensures Round6(Fused(w, StandingOf(hits, rows, out))) <= r.score
    {
      RoundingKeepsOrder(scores[out], scores[r.chunkId]);
    }
  }

  lemma AllSelected(ids: seq<string>, scores: map<string, real>)
    requires Distinct(ids) && |ids| == |scores| && forall id | id in ids :: id in scores
    ensures forall id | id in scores :: id in ids
  {
    var chosen := set id | id in ids;
    DistinctSize(ids, chosen);
    SubsetSize(chosen, scores.Keys);
  }

  lemma {:induction false} ShownIds(ids: seq<string>, scores: map<string, real>, corpus: Corpus)
    requires forall id | id in ids :: id in scores
    ensures ChunkIds(Shown(ids, scores, corpus)) == VisibleOf(ids, corpus)
  {
    if ids != [] {
      var init, id := ids[..|ids| - 1], ids[|ids| - 1];
      ShownIds(init, scores, corpus);
      var before := Shown(init, scores, corpus);
      if corpus.Visible(id) {
        assert (before + [corpus.ResultFor(id, scores[id])])[..|before|] == before;
      } else {
        assert before + [] == before;
      }
    }
  }

  lemma LastIsLowest(init: seq<string>, last: string, scores: map<string, real>, before: seq<Result>)
    requires Distinct(init + [last]) && Descending(init + [last], scores)
    requires forall r | r in before :: r.chunkId in init && r.score == scores[r.chunkId]
    ensures forall i | 0 <= i < |before| :: before[i].score >= scores[last] && before[i].chunkId != last
  {
    forall i | 0 <= i < |before| ensures before[i].score >= scores[last] && before[i].chunkId != last {
      assert before[i] in before;
      var k :| 0 <= k < |init| && init[k] == before[i].chunkId;
      assert (init + [last])[k] == init[k] && (init + [last])[|init|] == last;
    }
  }

  lemma {:induction false} ShownFacts(ids: seq<string>, scores: map<string, real>, corpus: Corpus)
    requires Distinct(ids) && Descending(ids, scores)
    ensures var rs := Shown(ids, scores, corpus);
      && |rs| <= |ids|
      && (forall r | r in rs ::
            r.chunkId in ids && corpus.Visible(r.chunkId) && r == corpus.ResultFor(r.chunkId, scores[r.chunkId]))
      && (forall id | id in ids && corpus.Visible(id) :: Shows(rs, id))
      && forall i, j | 0 <= i < j < |rs| :: rs[i].score >= rs[j].score && rs[i].chunkId != rs[j].chunkId
  {
    if ids != [] {
      var init, last := ids[..|ids| - 1], ids[|ids| - 1];
      assert ids == init + [last];
      ShownFacts(init, scores, corpus);
      var before := Shown(init, scores, corpus);
      var rs := Shown(ids, scores, corpus);
      LastIsLowest(init, last, scores, before);
      forall id | id in ids && corpus.Visible(id) ensures Shows(rs, id) {
        if id == last {
          assert rs[|rs| - 1].chunkId == id;
        } else {
          var r :| r in before && r.chunkId == id;
          assert r in rs;
        }
      }
    }
  }
}
