/** parameterOptimisation: evaluate the link model on the whole parameter
    grid, in the simulator's loop order, then run the selection. */
module Optimiser {
  import opened Wrappers
  import opened LinkModel
  import opened Selection

  /** 21 powers times 7 spreading factors times 3 bandwidth codes. */
  const GridSize: nat := 441
  /** The coding rate is not swept: the least redundancy is always used. */
  const GridCodingRate: int := 1

  /** The arguments of parameterOptimisation that every grid point shares. */
  datatype Environment = Environment(npe: real, hTransmit: real, hReceive: real, gains: real, payload: int)

  /** The parameters evaluated at position i of the grid. */
  function GridParams(env: Environment, i: nat): (p: LinkParams)
    requires i < GridSize
    ensures InTables(p)
    ensures 0 <= p.programmedPower <= 20 && p.codingRate == GridCodingRate
    ensures p.npe == env.npe && p.hTransmit == env.hTransmit && p.hReceive == env.hReceive
    ensures p.gains == env.gains && p.payload == env.payload
  {
    LinkParams(6 + (i % 21) / 3, GridCodingRate, i / 21, 1 + i % 3,
               env.npe, env.hTransmit, env.hReceive, env.gains, env.payload)
  }

  /** The position of a (power, spreading factor, bandwidth code) triple:
      power outermost, bandwidth code innermost. */
  function GridIndex(power: int, sf: int, code: int): nat
    requires 0 <= power <= 20 && 6 <= sf <= 12 && 1 <= code <= 3
  {
    power * 21 + (sf - 6) * 3 + (code - 1)
  }

  /** Every triple of the swept ranges sits at exactly its GridIndex. */
  lemma GridIndexRoundTrip(env: Environment, power: int, sf: int, code: int)
    requires 0 <= power <= 20 && 6 <= sf <= 12 && 1 <= code <= 3
    ensures GridIndex(power, sf, code) < GridSize
    ensures GridParams(env, GridIndex(power, sf, code))
            == LinkParams(sf, GridCodingRate, power, code,
                          env.npe, env.hTransmit, env.hReceive, env.gains, env.payload)
  {
    var i := GridIndex(power, sf, code);
    var r := (sf - 6) * 3 + (code - 1);
    assert 0 <= r < 21;
    assert i / 21 == power && i % 21 == r;
    assert r / 3 == sf - 6;
    assert i % 3 == code - 1;
  }

  /** Every grid position holds the triple whose GridIndex it is. */
  lemma GridParamsRoundTrip(env: Environment, i: nat)
    requires i < GridSize
    ensures GridIndex(GridParams(env, i).programmedPower, GridParams(env, i).spreadingFactor,
                      GridParams(env, i).bandwidthCode) == i
  {
    assert (i % 21) == (i % 21) / 3 * 3 + i % 3;
  }

  /** Grid positions are in lexicographic order of (power, spreading
      factor, bandwidth code). */
  lemma GridOrder(env: Environment, i: nat, j: nat)
    requires i < j < GridSize
    ensures var p, q := GridParams(env, i), GridParams(env, j);
      || p.programmedPower < q.programmedPower
      || (p.programmedPower == q.programmedPower && p.spreadingFactor < q.spreadingFactor)
      || (p.programmedPower == q.programmedPower && p.spreadingFactor == q.spreadingFactor
          && p.bandwidthCode < q.bandwidthCode)
  {
    GridParamsRoundTrip(env, i);
    GridParamsRoundTrip(env, j);
  }

  /** The grid of result rows: row i is the link model at grid position i,
      which never raises a look-up error. */
  function GridRows(env: Environment, planeEarth: Channel): (rows: seq<LinkResult>)
    ensures |rows| == GridSize
  {
    seq(GridSize, (i: int) requires 0 <= i < GridSize =>
      TestParameters(GridParams(env, i), planeEarth).value)
  }

  /** Every grid row is the successful evaluation of its grid position. */
  lemma GridRowsEvaluate(env: Environment, planeEarth: Channel, i: nat)
    requires i < GridSize
    ensures TestParameters(GridParams(env, i), planeEarth) == Success(GridRows(env, planeEarth)[i])
  {
  }

  /** A prefix one longer is the prefix with the next element appended. */
  lemma PrefixExtend<T>(s: seq<T>, n: nat)
    requires n < |s|
    ensures s[..n + 1] == s[..n] + [s[n]]
  {
  }

  /** Evaluating the next triple extends a grid prefix by one row. */
  lemma GridStep(env: Environment, planeEarth: Channel, results: seq<LinkResult>,
                 power: int, sf: int, code: int)
    requires 0 <= power <= 20 && 6 <= sf <= 12 && 1 <= code <= 3
    requires |results| == GridIndex(power, sf, code)
    requires results == GridRows(env, planeEarth)[..|results|]
    ensures TestParameters(LinkParams(sf, GridCodingRate, power, code, env.npe, env.hTransmit,
                                      env.hReceive, env.gains, env.payload), planeEarth).Success?
    ensures results + [TestParameters(LinkParams(sf, GridCodingRate, power, code, env.npe,
                                                 env.hTransmit, env.hReceive, env.gains,
                                                 env.payload), planeEarth).value]
            == GridRows(env, planeEarth)[..|results| + 1]
  {
    GridIndexRoundTrip(env, power, sf, code);
    GridRowsEvaluate(env, planeEarth, |results|);
    PrefixExtend(GridRows(env, planeEarth), |results|);
  }

  /** The three nested loops of parameterOptimisation that fill testResults:
      power 0..20, then spreading factor 6..12, then bandwidth code 1..3,
      coding rate fixed at 1. */
  method EnumerateGrid(env: Environment, planeEarth: Channel) returns (results: seq<LinkResult>)
    ensures results == GridRows(env, planeEarth)
  {
    ghost var grid := GridRows(env, planeEarth);
    var transPower := 0;
    var sf := 6;
    var cr := GridCodingRate;
    var bw := 1;
    results := [];
    while transPower < 21
      invariant 0 <= transPower <= 21 && sf == 6 && bw == 1 && cr == GridCodingRate
      invariant |results| == transPower * 21
      invariant results == grid[..|results|]
    {
      while sf < 13
        invariant 6 <= sf <= 13 && bw == 1 && transPower < 21 && cr == GridCodingRate
        invariant |results| == transPower * 21 + (sf - 6) * 3
        invariant results == grid[..|results|]
      {
        while bw < 4
          invariant 1 <= bw <= 4 && sf < 13 && transPower < 21 && cr == GridCodingRate
          invariant |results| == transPower * 21 + (sf - 6) * 3 + (bw - 1)
          invariant results == grid[..|results|]
        {
          var p := LinkParams(sf, cr, transPower, bw,
                              env.npe, env.hTransmit, env.hReceive, env.gains, env.payload);
          var row := TestParameters(p, planeEarth);
          GridStep(env, planeEarth, results, transPower, sf, bw);
          results := results + [row.value];
          bw := bw + 1;
        }
        sf := sf + 1;
        bw := 1;
      }
      transPower := transPower + 1;
      sf := 6;
    }
    assert grid[..|results|] == grid;
  }

  /** parameterOptimisation without the plotting: the full grid of results
      (what the plot receives) and the selected row, or the ValueError. */
  method ParameterOptimisation(region: Region, env: Environment, w: Weights, planeEarth: Channel)
    returns (results: seq<LinkResult>, best: Result<LinkResult, OptimiseError>)
    ensures results == GridRows(env, planeEarth)
    ensures best.Success? ==>
      && Feasible(region, best.value)
      && best.value.codingRate == GridCodingRate
      && (forall i :: 0 <= i < GridSize && Feasible(region, results[i]) ==>
            Score(w, results[i]) <= Score(w, best.value))
      && (exists i :: 0 <= i < GridSize && results[i] == best.value
            && (forall k :: 0 <= k < i && Feasible(region, results[k]) ==>
                  Score(w, results[k]) < Score(w, best.value)))
    ensures best.Failure? <==>
      (|| NoneFeasible(region, results, GridSize)
       || exists f :: FirstFeasibleAt(region, results, f) && MaximalIn(region, w, results, GridSize, f))
    ensures region.energyMax <= region.energyMin ==> best == Failure(NoPossibilitiesInRegion)
  {
    results := EnumerateGrid(env, planeEarth);
    best := Select(region, w, results);
    SelectFailsIff(region, w, results);
    if region.energyMax <= region.energyMin {
      EmptyRegionFails(region, w, results);
    }
    if best.Success? {
      SelectSound(region, w, results);
      ghost var f, j :| 0 <= f < j < |results|
                  && FirstFeasibleAt(region, results, f)
                  && FirstMaximalIn(region, w, results, |results|, j)
                  && results[j] == best.value;
      GridRowsEvaluate(env, planeEarth, j);
    }
  }

  /** parameterOptimisation with the corrected selection: over the same
      grid, the earliest feasible row of maximal score, and the ValueError
      exactly when no grid row is feasible. */
  method ParameterOptimisationIntended(region: Region, env: Environment, w: Weights, planeEarth: Channel)
    returns (results: seq<LinkResult>, best: Result<LinkResult, OptimiseError>)
    ensures results == GridRows(env, planeEarth)
    ensures best.Failure? <==> NoneFeasible(region, results, GridSize)
    ensures best.Success? ==>
      && best.value.codingRate == GridCodingRate
      && exists j :: FirstMaximalIn(region, w, results, GridSize, j) && results[j] == best.value
  {
    results := EnumerateGrid(env, planeEarth);
    best := SelectIntended(region, w, results);
    SelectIntendedCorrect(region, w, results);
    if best.Success? {
      ghost var j :| 0 <= j < |results| && results[j] == best.value
                     && FirstMaximalIn(region, w, results, |results|, j);
      GridRowsEvaluate(env, planeEarth, j);
    }
  }
}
