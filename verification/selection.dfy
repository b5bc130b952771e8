/**
 * Choosing the holding period with the highest monthly return (App.tsx:217-219):
 * a left fold over the non-empty projection list without an initial value.
 */
module Selection {
  import opened Types

  /** One step of the fold: the running best survives only when strictly better. */
  function KeepBetter(prev: ProjectionData, current: ProjectionData): (r: ProjectionData)
    ensures r == prev || r == current
    ensures r.rentabilidadeMensal >= prev.rentabilidadeMensal
    ensures r.rentabilidadeMensal >= current.rentabilidadeMensal
    ensures prev.rentabilidadeMensal == current.rentabilidadeMensal ==> r == current
  {
    if prev.rentabilidadeMensal > current.rentabilidadeMensal then prev else current
  }

  /** The source's selection: folds `KeepBetter` over the list from the first element. */
  function BestProjection(s: seq<ProjectionData>): (r: ProjectionData)
    requires |s| > 0
    ensures r in s
    ensures forall i :: 0 <= i < |s| ==> s[i].rentabilidadeMensal <= r.rentabilidadeMensal
  {
    if |s| == 1 then s[0]
    else KeepBetter(BestProjection(s[..|s| - 1]), s[|s| - 1])
  }

  /**
   * Among equal maxima the fold returns the LAST one: the maximum at `j`
   * that no later element reaches is the result.
   */
  lemma {:induction false} LastMaximumWins(s: seq<ProjectionData>, j: nat)
    requires j < |s|
    requires forall i :: 0 <= i < |s| ==> s[i].rentabilidadeMensal <= s[j].rentabilidadeMensal
    requires forall i :: j < i < |s| ==> s[i].rentabilidadeMensal < s[j].rentabilidadeMensal
    ensures BestProjection(s) == s[j]
  {
    if |s| > 1 && j < |s| - 1 {
      var prefix := s[..|s| - 1];
      assert forall i :: 0 <= i < |prefix| ==> prefix[i] == s[i];
      LastMaximumWins(prefix, j);
    }
  }

  /** One step of the tie-break toward the earlier, shorter period. */
  function KeepFirst(prev: ProjectionData, current: ProjectionData): (r: ProjectionData)
    ensures r == prev || r == current
    ensures r.rentabilidadeMensal >= prev.rentabilidadeMensal
    ensures r.rentabilidadeMensal >= current.rentabilidadeMensal
    ensures prev.rentabilidadeMensal == current.rentabilidadeMensal ==> r == prev
  {
    if prev.rentabilidadeMensal >= current.rentabilidadeMensal then prev else current
  }

  /** The selection with ties resolved toward the earliest period. */
  function BestEarliest(s: seq<ProjectionData>): (r: ProjectionData)
    requires |s| > 0
    ensures r in s
    ensures forall i :: 0 <= i < |s| ==> s[i].rentabilidadeMensal <= r.rentabilidadeMensal
  {
    if |s| == 1 then s[0]
    else KeepFirst(BestEarliest(s[..|s| - 1]), s[|s| - 1])
  }

  /** Among equal maxima `BestEarliest` returns the FIRST one. */
  lemma {:induction false} FirstMaximumWins(s: seq<ProjectionData>, j: nat)
    requires j < |s|
    requires forall i :: 0 <= i < |s| ==> s[i].rentabilidadeMensal <= s[j].rentabilidadeMensal
    requires forall i :: 0 <= i < j ==> s[i].rentabilidadeMensal < s[j].rentabilidadeMensal
    ensures BestEarliest(s) == s[j]
  {
    if |s| > 1 {
      var prefix := s[..|s| - 1];
      assert forall i :: 0 <= i < |prefix| ==> prefix[i] == s[i];
      if j < |s| - 1 {
        FirstMaximumWins(prefix, j);
      } else {
        assert BestEarliest(prefix) in prefix;
      }
    }
  }

  /** The two tie-breaks pick the same record whenever the maximum is attained only once. */
  lemma UniqueMaximumAgrees(s: seq<ProjectionData>, j: nat)
    requires j < |s|
    requires forall i :: 0 <= i < |s| && i != j ==> s[i].rentabilidadeMensal < s[j].rentabilidadeMensal
    ensures BestProjection(s) == BestEarliest(s) == s[j]
  {
    LastMaximumWins(s, j);
    FirstMaximumWins(s, j);
  }
}
