/** The filter, score and running-best selection of parameterOptimisation,
    over any sequence of result rows. A row's distance and energy are taken
    as given reals, so nothing here depends on the channel model. */
module Selection {
  import opened Wrappers
  import opened LinkModel

  /** The caller's feasible region: energy budget and distance requirement. */
  datatype Region = Region(energyMax: real, energyMin: real, distMax: real, distMin: real)

  /** Weights of the utility function. */
  datatype Weights = Weights(distWeighting: real, powerWeighting: real)

  /** The ValueError raised when no row is selected. */
  datatype OptimiseError = NoPossibilitiesInRegion

  /** A row is feasible when its energy and distance lie strictly inside the
      region: rows on a boundary are excluded. */
  predicate Feasible(region: Region, row: LinkResult)
    ensures Feasible(region, row) ==>
      region.energyMin < region.energyMax && region.distMin < region.distMax
  {
    && row.energyMicroJ < region.energyMax
    && row.energyMicroJ > region.energyMin
    && row.maxDistKm > region.distMin
    && row.maxDistKm < region.distMax
  }

  /** Utility of a row: weighted distance minus weighted energy. */
  function Score(w: Weights, row: LinkResult): (s: real)
    ensures w.powerWeighting >= 0.0 && row.energyMicroJ >= 0.0 ==> s <= row.maxDistKm * w.distWeighting
  {
    row.maxDistKm * w.distWeighting - row.energyMicroJ * w.powerWeighting
  }

  /** The loop state of the selection: `currentScore` (None before the first
      feasible row) and `currentBest` (None while it is the empty list). */
  datatype Running = Running(currentScore: Option<real>, currentBest: Option<LinkResult>)

  /** One iteration of the selection loop as written: the first feasible row
      only seeds the score; a row becomes the best only when its score is
      strictly greater than the current score. */
  function Step(region: Region, w: Weights, s: Running, row: LinkResult): (r: Running)
    ensures !Feasible(region, row) ==> r == s
    ensures Feasible(region, row) ==> r.currentScore.Some?
    ensures s.currentScore.None? ==> r.currentBest == s.currentBest
    ensures r.currentBest != s.currentBest ==> r.currentBest == Some(row) && Feasible(region, row)
    ensures s.currentScore.Some? ==> r.currentScore.Some? && r.currentScore.value >= s.currentScore.value
  {
    if !Feasible(region, row) then s
    else
      var score := Score(w, row);
      var current := if s.currentScore.None? then score else s.currentScore.value;
      if score > current then Running(Some(score), Some(row))
      else Running(Some(current), s.currentBest)
  }

  /** The loop state after the first n rows. */
  function RunPrefix(region: Region, w: Weights, rows: seq<LinkResult>, n: nat): (r: Running)
    requires n <= |rows|
    ensures r.currentBest.Some? ==> Feasible(region, r.currentBest.value) && r.currentBest.value in rows[..n]
  {
    if n == 0 then Running(None, None)
    else Step(region, w, RunPrefix(region, w, rows, n - 1), rows[n - 1])
  }

  /** The selection as written: the final best row, or the ValueError when
      the best is still the empty list. */
  function Select(region: Region, w: Weights, rows: seq<LinkResult>): (r: Result<LinkResult, OptimiseError>)
    ensures r.Success? ==> Feasible(region, r.value) && r.value in rows
  {
    var s := RunPrefix(region, w, rows, |rows|);
    assert rows[..|rows|] == rows;
    if s.currentBest.None? then Failure(NoPossibilitiesInRegion) else Success(s.currentBest.value)
  }

  /** No row among the first n is feasible. */
  ghost predicate NoneFeasible(region: Region, rows: seq<LinkResult>, n: nat)
    requires n <= |rows|
  {
    forall k :: 0 <= k < n ==> !Feasible(region, rows[k])
  }

  /** Row f is the first feasible row. */
  ghost predicate FirstFeasibleAt(region: Region, rows: seq<LinkResult>, f: int)
  {
    && 0 <= f < |rows|
    && Feasible(region, rows[f])
    && forall k :: 0 <= k < f ==> !Feasible(region, rows[k])
  }

  /** Row j is feasible and scores at least as high as every feasible row
      among the first n. */
  ghost predicate MaximalIn(region: Region, w: Weights, rows: seq<LinkResult>, n: nat, j: int)
    requires n <= |rows|
  {
    && 0 <= j < n
    && Feasible(region, rows[j])
    && forall k :: 0 <= k < n && Feasible(region, rows[k]) ==> Score(w, rows[k]) <= Score(w, rows[j])
  }

  /** Row j is the earliest maximal feasible row among the first n: every
      feasible row before it scores strictly less. */
  ghost predicate FirstMaximalIn(region: Region, w: Weights, rows: seq<LinkResult>, n: nat, j: int)
    requires n <= |rows|
  {
    && MaximalIn(region, w, rows, n, j)
    && forall k :: 0 <= k < j && Feasible(region, rows[k]) ==> Score(w, rows[k]) < Score(w, rows[j])
  }

  /** What the loop state means after n rows: the score is unset exactly when
      nothing so far was feasible, and then the best is unset too. Otherwise
      f is the first feasible row, the score is that of the earliest maximal
      row j, and the best is unset exactly when j is f, and is row j
      otherwise. */
  lemma {:induction false} RunPrefixInvariant(region: Region, w: Weights, rows: seq<LinkResult>, n: nat)
    returns (f: int, j: int)
    requires n <= |rows|
    ensures RunPrefix(region, w, rows, n).currentScore.None? <==> NoneFeasible(region, rows, n)
    ensures RunPrefix(region, w, rows, n).currentScore.None? ==> RunPrefix(region, w, rows, n).currentBest.None?
    ensures RunPrefix(region, w, rows, n).currentScore.Some? ==>
      && FirstFeasibleAt(region, rows, f)
      && f <= j
      && FirstMaximalIn(region, w, rows, n, j)
      && RunPrefix(region, w, rows, n).currentScore.value == Score(w, rows[j])
      && (RunPrefix(region, w, rows, n).currentBest.None? <==> f == j)
      && (RunPrefix(region, w, rows, n).currentBest.Some? ==>
            RunPrefix(region, w, rows, n).currentBest.value == rows[j])
  {
    if n == 0 {
      f, j := 0, 0;
    } else {
      var f', j' := RunPrefixInvariant(region, w, rows, n - 1);
      var row := rows[n - 1];
      var s := RunPrefix(region, w, rows, n - 1);
      if !Feasible(region, row) {
        f, j := f', j';
      } else if s.currentScore.None? {
        f, j := n - 1, n - 1;
      } else if Score(w, row) > s.currentScore.value {
        f, j := f', n - 1;
      } else {
        f, j := f', j';
      }
    }
  }

  /** A returned row is feasible, at least as good as every feasible row,
      and is the earliest row with the maximal score, which lies after the
      first feasible row: later ties never replace it. */
  lemma SelectSound(region: Region, w: Weights, rows: seq<LinkResult>)
    requires Select(region, w, rows).Success?
    ensures Feasible(region, Select(region, w, rows).value)
    ensures forall k :: 0 <= k < |rows| && Feasible(region, rows[k]) ==>
              Score(w, rows[k]) <= Score(w, Select(region, w, rows).value)
    ensures exists f, j :: 0 <= f < j < |rows|
              && FirstFeasibleAt(region, rows, f)
              && FirstMaximalIn(region, w, rows, |rows|, j)
              && rows[j] == Select(region, w, rows).value
  {
    var f, j := RunPrefixInvariant(region, w, rows, |rows|);
  }

  /** There is at most one first feasible row. */
  lemma FirstFeasibleUnique(region: Region, rows: seq<LinkResult>, f1: int, f2: int)
    requires FirstFeasibleAt(region, rows, f1) && FirstFeasibleAt(region, rows, f2)
    ensures f1 == f2
  {
  }

  /** The ValueError is raised exactly when no row is feasible or the first
      feasible row already has the maximal score. */
  lemma SelectFailsIff(region: Region, w: Weights, rows: seq<LinkResult>)
    ensures Select(region, w, rows).Failure? <==>
      (|| NoneFeasible(region, rows, |rows|)
       || exists f :: FirstFeasibleAt(region, rows, f) && MaximalIn(region, w, rows, |rows|, f))
  {
    var f, j := RunPrefixInvariant(region, w, rows, |rows|);
    if !NoneFeasible(region, rows, |rows|) {
      forall f' | FirstFeasibleAt(region, rows, f')
        ensures f' == f
      {
        FirstFeasibleUnique(region, rows, f, f');
      }
    }
  }

  /** An empty energy budget (maximum not above minimum) always raises the
      ValueError. */
  lemma EmptyRegionFails(region: Region, w: Weights, rows: seq<LinkResult>)
    requires region.energyMax <= region.energyMin
    ensures Select(region, w, rows) == Failure(NoPossibilitiesInRegion)
  {
    var f, j := RunPrefixInvariant(region, w, rows, |rows|);
  }

  /** Corrected selection: the first feasible row also becomes the best, so
      the error is raised only when nothing is feasible. */
  function StepIntended(region: Region, w: Weights, s: Running, row: LinkResult): (r: Running)
    ensures !Feasible(region, row) ==> r == s
    ensures Feasible(region, row) && s.currentScore.None? ==> r.currentBest == Some(row)
    ensures r.currentBest != s.currentBest ==> r.currentBest == Some(row) && Feasible(region, row)
    ensures s.currentScore.Some? ==> r.currentScore.Some? && r.currentScore.value >= s.currentScore.value
  {
    if !Feasible(region, row) then s
    else
      var score := Score(w, row);
      if s.currentScore.None? || score > s.currentScore.value then Running(Some(score), Some(row))
      else s
  }

  /** The corrected loop state after the first n rows. */
  function RunPrefixIntended(region: Region, w: Weights, rows: seq<LinkResult>, n: nat): (r: Running)
    requires n <= |rows|
    ensures r.currentBest.None? <==> r.currentScore.None?
    ensures r.currentBest.Some? ==> Feasible(region, r.currentBest.value) && r.currentBest.value in rows[..n]
  {
    if n == 0 then Running(None, None)
    else StepIntended(region, w, RunPrefixIntended(region, w, rows, n - 1), rows[n - 1])
  }

  /** The corrected selection: an arg-max with first-seen-wins ties. */
  function SelectIntended(region: Region, w: Weights, rows: seq<LinkResult>): (r: Result<LinkResult, OptimiseError>)
    ensures r.Success? ==> Feasible(region, r.value) && r.value in rows
  {
    var s := RunPrefixIntended(region, w, rows, |rows|);
    assert rows[..|rows|] == rows;
    if s.currentBest.None? then Failure(NoPossibilitiesInRegion) else Success(s.currentBest.value)
  }

  /** The corrected loop state after n rows: nothing is set exactly when
      nothing so far was feasible; otherwise the best is the earliest
      maximal row j and the score is its score. */
  lemma {:induction false} RunPrefixIntendedInvariant(region: Region, w: Weights, rows: seq<LinkResult>, n: nat)
    returns (j: int)
    requires n <= |rows|
    ensures RunPrefixIntended(region, w, rows, n).currentBest.None? <==> NoneFeasible(region, rows, n)
    ensures RunPrefixIntended(region, w, rows, n).currentScore.None? <==> NoneFeasible(region, rows, n)
    ensures RunPrefixIntended(region, w, rows, n).currentBest.Some? ==>
      && FirstMaximalIn(region, w, rows, n, j)
      && RunPrefixIntended(region, w, rows, n).currentBest.value == rows[j]
      && RunPrefixIntended(region, w, rows, n).currentScore == Some(Score(w, rows[j]))
  {
    if n == 0 {
      j := 0;
    } else {
      var prev := RunPrefixIntendedInvariant(region, w, rows, n - 1);
      var row := rows[n - 1];
      var s := RunPrefixIntended(region, w, rows, n - 1);
      if !Feasible(region, row) {
        j := prev;
      } else if s.currentScore.None? || Score(w, row) > s.currentScore.value {
        j := n - 1;
      } else {
        j := prev;
      }
    }
  }

  /** The corrected selection fails exactly when no row is feasible, and
      otherwise returns the earliest row of maximal score. */
  lemma SelectIntendedCorrect(region: Region, w: Weights, rows: seq<LinkResult>)
    ensures SelectIntended(region, w, rows).Failure? <==> NoneFeasible(region, rows, |rows|)
    ensures SelectIntended(region, w, rows).Success? ==>
      exists j :: 0 <= j < |rows| && rows[j] == SelectIntended(region, w, rows).value
                  && FirstMaximalIn(region, w, rows, |rows|, j)
  {
    var j := RunPrefixIntendedInvariant(region, w, rows, |rows|);
  }

  /** Whenever the selection as written returns a row, the corrected one
      returns the same row. */
  lemma SelectAgreesWithIntended(region: Region, w: Weights, rows: seq<LinkResult>)
    requires Select(region, w, rows).Success?
    ensures SelectIntended(region, w, rows) == Select(region, w, rows)
  {
    var f1, j1 := RunPrefixInvariant(region, w, rows, |rows|);
    var j2 := RunPrefixIntendedInvariant(region, w, rows, |rows|);
  }

  /** A region holding a single feasible row shows the discrepancy: the
      selection as written raises the ValueError while a feasible row
      exists, and the corrected selection returns that row. */
  lemma SingleFeasibleRowRejected(region: Region, w: Weights, row: LinkResult)
    requires Feasible(region, row)
    ensures Select(region, w, [row]) == Failure(NoPossibilitiesInRegion)
    ensures SelectIntended(region, w, [row]) == Success(row)
  {
    assert RunPrefix(region, w, [row], 1) == Step(region, w, Running(None, None), row);
    assert RunPrefixIntended(region, w, [row], 1)
        == StepIntended(region, w, Running(None, None), row);
  }
}
