/**
 * The weighted aggregator (lib/scoring.ts): the total of a judge's scores is
 * the sum, in list order, of each score times the weight its criterion id
 * has in the rubric. Ids the rubric does not declare weigh 0; when the
 * rubric declares an id twice, the later weight wins; nothing is divided
 * by the sum of the weights.
 */
module Scoring {
  import opened Llm

  /** The id -> weight map `new Map(criteria.map(...))`: later entries overwrite earlier ones. */
  function Weights(criteria: seq<Criterion>): (m: map<string, real>)
    ensures m.Keys == set c | c in criteria :: c.id
  {
    if criteria == [] then map[]
    else
      var last := criteria[|criteria| - 1];
      Weights(criteria[..|criteria| - 1])[last.id := last.weight]
  }

  /** `weights.get(id) ?? 0`. */
  function WeightOf(weights: map<string, real>, id: string): (w: real)
    ensures id in weights ==> w == weights[id]
    ensures id !in weights ==> w == 0.0
  {
    if id in weights then weights[id] else 0.0
  }

  /** The `reduce` from 0: each step adds one entry's score times its weight. */
  function Fold(weights: map<string, real>, scores: seq<LLMScore>): (total: real)
    ensures scores == [] ==> total == 0.0
  {
    if scores == [] then 0.0
    else
      var last := scores[|scores| - 1];
      Fold(weights, scores[..|scores| - 1]) + Scaled(last.score, WeightOf(weights, last.id))
  }

  /** One entry's contribution: its score times its weight. */
  function Scaled(score: real, weight: real): real {
    score * weight
  }

  /** `calculateWeightedScore`. */
  function CalculateWeightedScore(criteria: seq<Criterion>, scores: seq<LLMScore>): (total: real)
    ensures scores == [] ==> total == 0.0
  {
    Fold(Weights(criteria), scores)
  }

  /**
   * Independent reading of the weight of an id, scanning from the front: a
   * criterion's weight applies only when no later criterion declares the
   * same id; an id nobody declares weighs 0.
   */
  ghost function DeclaredWeight(criteria: seq<Criterion>, id: string): real {
    if criteria == [] then 0.0
    else if exists j :: 1 <= j < |criteria| && criteria[j].id == id then DeclaredWeight(criteria[1..], id)
    else if criteria[0].id == id then criteria[0].weight
    else 0.0
  }

  /** Independent reading of the total: the sum of the contributions, first entry first. */
  ghost function ContributionSum(criteria: seq<Criterion>, scores: seq<LLMScore>): real {
    if scores == [] then 0.0
    else Scaled(scores[0].score, DeclaredWeight(criteria, scores[0].id)) + ContributionSum(criteria, scores[1..])
  }

  /** The weight the map keeps for an id is that of the last criterion declaring it. */
  lemma {:induction false} LastDeclaredWeightWins(criteria: seq<Criterion>, i: nat)
    requires i < |criteria|
    requires forall j :: i < j < |criteria| ==> criteria[j].id != criteria[i].id
    ensures criteria[i].id in Weights(criteria)
    ensures Weights(criteria)[criteria[i].id] == criteria[i].weight
  {
    if i < |criteria| - 1 {
      LastDeclaredWeightWins(criteria[..|criteria| - 1], i);
    }
  }

  /** The declarative weight of the last declaration of an id is that declaration's weight. */
  lemma {:induction false} DeclaredWeightAt(criteria: seq<Criterion>, i: nat)
    requires i < |criteria|
    requires forall j :: i < j < |criteria| ==> criteria[j].id != criteria[i].id
    ensures DeclaredWeight(criteria, criteria[i].id) == criteria[i].weight
  {
    if i > 0 {
      DeclaredWeightAt(criteria[1..], i - 1);
    }
  }

  /** An id nobody declares has declarative weight 0. */
  lemma {:induction false} UndeclaredWeightIsZero(criteria: seq<Criterion>, id: string)
    requires forall c :: c in criteria ==> c.id != id
    ensures DeclaredWeight(criteria, id) == 0.0
  {
    if criteria != [] {
      UndeclaredWeightIsZero(criteria[1..], id);
    }
  }

  /** The lookup `weights.get(id) ?? 0` agrees with the declarative reading. */
  lemma WeightOfIsDeclaredWeight(criteria: seq<Criterion>, id: string)
    ensures WeightOf(Weights(criteria), id) == DeclaredWeight(criteria, id)
  {
    if k :| 0 <= k < |criteria| && criteria[k].id == id {
      var i := LastIndexOf(criteria, id, k);
      LastDeclaredWeightWins(criteria, i);
      DeclaredWeightAt(criteria, i);
    } else {
      UndeclaredWeightIsZero(criteria, id);
    }
  }

  /** The index of the last criterion declaring `id`, given one that does. */
  lemma {:induction false} LastIndexOf(criteria: seq<Criterion>, id: string, k: nat) returns (i: nat)
    requires k < |criteria| && criteria[k].id == id
    ensures k <= i < |criteria| && criteria[i].id == id
    ensures forall j :: i < j < |criteria| ==> criteria[j].id != id
    decreases |criteria| - k
  {
    if exists j :: k < j < |criteria| && criteria[j].id == id {
      var j :| k < j < |criteria| && criteria[j].id == id;
      i := LastIndexOf(criteria, id, j);
    } else {
      i := k;
    }
  }

  /** Appending one entry adds exactly that entry's weighted score. */
  lemma AppendAddsOneContribution(criteria: seq<Criterion>, scores: seq<LLMScore>, entry: LLMScore)
    ensures CalculateWeightedScore(criteria, scores + [entry])
         == CalculateWeightedScore(criteria, scores) + Scaled(entry.score, DeclaredWeight(criteria, entry.id))
  {
    var w, all := Weights(criteria), scores + [entry];
    var dw := DeclaredWeight(criteria, entry.id);
    assert WeightOf(w, entry.id) == dw by {
      WeightOfIsDeclaredWeight(criteria, entry.id);
    }
    assert Fold(w, all) == Fold(w, scores) + Scaled(entry.score, dw) by {
      assert all[..|all| - 1] == scores && all[|all| - 1] == entry;
    }
  }

  /** The total of two lists one after the other is the sum of their totals. */
  lemma {:induction false} FoldConcat(weights: map<string, real>, a: seq<LLMScore>, b: seq<LLMScore>)
    ensures Fold(weights, a + b) == Fold(weights, a) + Fold(weights, b)
    decreases |b|
  {
    if b == [] {
      assert a + b == a;
    } else {
      var init := b[..|b| - 1];
      assert (a + b)[..|a + b| - 1] == a + init;
      FoldConcat(weights, a, init);
    }
  }

  /** Folding from the end equals summing from the front. */
  lemma {:induction false} FoldIsContributionSum(criteria: seq<Criterion>, scores: seq<LLMScore>)
    ensures Fold(Weights(criteria), scores) == ContributionSum(criteria, scores)
    decreases |scores|
  {
    if scores != [] {
      var w, head, tail := Weights(criteria), scores[0], scores[1..];
      var dw, rest := DeclaredWeight(criteria, head.id), ContributionSum(criteria, tail);
      assert Fold(w, scores) == Fold(w, [head]) + Fold(w, tail) by {
        assert [head] + tail == scores;
        FoldConcat(w, [head], tail);
      }
      assert Fold(w, [head]) == Scaled(head.score, dw) by {
        FoldSingleton(w, head);
        WeightOfIsDeclaredWeight(criteria, head.id);
      }
      assert Fold(w, tail) == rest by {
        FoldIsContributionSum(criteria, tail);
      }
      assert ContributionSum(criteria, scores) == Scaled(head.score, dw) + rest;
    }
  }

  /** The fold of one entry is that entry's contribution. */
  lemma FoldSingleton(weights: map<string, real>, entry: LLMScore)
    ensures Fold(weights, [entry]) == Scaled(entry.score, WeightOf(weights, entry.id))
  {
    assert [entry][..0] == [];
  }

  /**
   * The total is the plain sum of score × weight over the entries, with the
   * weight of the last declaration of each id and 0 for undeclared ids.
   */
  lemma WeightedScoreIsSumOfContributions(criteria: seq<Criterion>, scores: seq<LLMScore>)
    ensures CalculateWeightedScore(criteria, scores) == ContributionSum(criteria, scores)
  {
    FoldIsContributionSum(criteria, scores);
  }

  /** An entry whose id the rubric does not declare changes nothing, whatever its score. */
  lemma UnknownIdContributesNothing(criteria: seq<Criterion>, before: seq<LLMScore>, entry: LLMScore, after: seq<LLMScore>)
    requires forall c :: c in criteria ==> c.id != entry.id
    ensures CalculateWeightedScore(criteria, before + [entry] + after) == CalculateWeightedScore(criteria, before + after)
  {
    var w := Weights(criteria);
    assert entry.id !in w;
    FoldConcat(w, before + [entry], after);
    FoldConcat(w, before, after);
    assert (before + [entry])[..|before|] == before;
  }

  /** No normalisation: weights 0.9 and 0.9 with scores 9 and 9 give 16.2, not 9. */
  lemma NoNormalisationByWeightSum()
    ensures CalculateWeightedScore(
              [Criterion("a", "A", "a", 0.9), Criterion("b", "B", "b", 0.9)],
              [LLMScore("a", 9.0, []), LLMScore("b", 9.0, [])]) == 16.2
  {
    var criteria := [Criterion("a", "A", "a", 0.9), Criterion("b", "B", "b", 0.9)];
    var w := Weights(criteria);
    assert criteria[..1] == [criteria[0]];
    assert w == map["a" := 0.9, "b" := 0.9];
    var scores := [LLMScore("a", 9.0, []), LLMScore("b", 9.0, [])];
    assert scores[..1] == [scores[0]];
    assert [scores[0]][..0] == [];
    assert Fold(w, [scores[0]]) == 8.1;
  }

  /** With a duplicate id, the second declaration's weight is the one applied. */
  lemma DuplicateIdUsesLastWeight()
    ensures CalculateWeightedScore(
              [Criterion("a", "A", "a", 0.2), Criterion("a", "A2", "a2", 0.7)],
              [LLMScore("a", 10.0, [])]) == 7.0
  {
    var criteria := [Criterion("a", "A", "a", 0.2), Criterion("a", "A2", "a2", 0.7)];
    LastDeclaredWeightWins(criteria, 1);
  }

  /** With non-negative weights and scores the total is non-negative. */
  lemma {:induction false} NonNegativeInputsGiveNonNegativeTotal(criteria: seq<Criterion>, scores: seq<LLMScore>)
    requires forall c :: c in criteria ==> c.weight >= 0.0
    requires forall s :: s in scores ==> s.score >= 0.0
    ensures CalculateWeightedScore(criteria, scores) >= 0.0
    decreases |scores|
  {
    if scores != [] {
      var w, last, init := Weights(criteria), scores[|scores| - 1], scores[..|scores| - 1];
      assert Fold(w, init) >= 0.0 by {
        assert forall s :: s in init ==> s in scores;
        NonNegativeInputsGiveNonNegativeTotal(criteria, init);
      }
      assert Scaled(last.score, WeightOf(w, last.id)) >= 0.0 by {
        assert last in scores;
        WeightsAreDeclared(criteria, last.id);
        ScaledNonNegative(last.score, WeightOf(w, last.id));
      }
    }
  }

  /** A weight found in the map is some criterion's weight. */
  lemma WeightsAreDeclared(criteria: seq<Criterion>, id: string)
    ensures id in Weights(criteria) ==> exists c :: c in criteria && c.weight == Weights(criteria)[id]
  {
    if id in Weights(criteria) {
      var k :| 0 <= k < |criteria| && criteria[k].id == id;
      var i := LastIndexOf(criteria, id, k);
      LastDeclaredWeightWins(criteria, i);
      assert criteria[i] in criteria;
    }
  }

  /** A product of non-negative numbers is non-negative. */
  lemma ScaledNonNegative(score: real, weight: real)
    requires score >= 0.0 && weight >= 0.0
    ensures Scaled(score, weight) >= 0.0
  {
  }
}
