# LoRa physical-layer simulator, modelled in Dafny

This project models the core of `lorasimulator.py`, a LoRa link calculator
after the Semtech SX1272/SX1276 LoRa calculator. The core has two parts:

- `testParameters` evaluates one parameter tuple. The tuple is spreading
  factor, coding rate, programmed power, bandwidth code, Plane Earth
  exponent NPE, antenna heights, antenna gains and payload size. The
  result is a ten-entry row: maximum distance, energy per packet, the
  parameters echoed, the bandwidth in kHz, maximum path loss, RSSI and
  packet time on air. For an input missing from a table, the result is
  the error the function raises.
- `parameterOptimisation` evaluates `testParameters` on the 441-point grid
  (power 0..20 dBm, spreading factor 6..12, bandwidth code 1..3, coding
  rate 1). It keeps the rows whose energy and distance lie strictly inside
  a region and returns the best-scoring row by the utility
  `distance * distWeighting - energy * powerWeighting`. When it returns
  no row it raises `ValueError`.

Modules, one per file:

- `Wrappers` (`wrappers.dfy`): `Option`, `Result` and dictionary look-up
  (a missing key is Python's `KeyError`).
- `LoraTables` (`lora_tables.dfy`): bandwidth, transmit-current and
  receiver-sensitivity tables, with their monotonicity.
- `Airtime` (`airtime.dfy`): the time-on-air formula. It includes
  `math.ceil` of a quotient as an exact integer ceiling, and `pow(2, SF)`
  for negative SF as a fraction.
- `Rounding` (`rounding.dfy`): Python's `round(x, 3)` on exact reals, half
  to even.
- `LinkModel` (`link_model.dfy`): `testParameters` as one total function
  returning `Result<LinkResult, LinkError>`. The errors come in the
  source's order:
  1. unknown bandwidth code (line 71);
  2. division by zero when SF is 0 (line 77);
  3. unknown power (line 92);
  4. unknown spreading factor (line 110).
- `Selection` (`selection.dfy`): the filter/score/running-best loop over
  any sequence of rows. It has two versions: the loop as written, and a
  corrected selection (see Findings).
- `Optimiser` (`optimiser.dfy`): the three nested grid loops as a method
  with loop invariants, and `parameterOptimisation` with either selection.

The Plane Earth channel `planeEarth` uses `log10` and a real power. It
appears as a function parameter `Channel`. The model states the distance
as `round(planeEarth(maxPathLoss, hTransmit, hReceive, NPE), 3)` for
whatever that function returns.

## Model

| member | source | states |
|---|---|---|
| Wrappers.Lookup | lorasimulator.py:71 | dictionary indexing succeeds exactly when the key is present, and then yields the stored value |
| LoraTables.LookupBandwidth | lorasimulator.py:71 | a bandwidth exists exactly for codes 1, 2, 3, which map to 125, 250 and 500 kHz respectively |
| LoraTables.TransmitCurrent | lorasimulator.py:83 | every tabled current lies between 22 and 125 mA |
| LoraTables.LookupTransmitCurrent | lorasimulator.py:83-92 | the current look-up succeeds exactly for -2..20 dBm and returns the table's entry |
| LoraTables.TransmitCurrentNonDecreasing | lorasimulator.py:83 | the current never decreases as the programmed power rises |
| LoraTables.Sensitivity | lorasimulator.py:104-110 | every sensitivity floor lies between -137 and -111 dBm |
| LoraTables.LookupSensitivity | lorasimulator.py:104-110 | the floor look-up succeeds exactly for SF 6..12, whatever the bandwidth code, and returns the table's entry |
| LoraTables.SensitivityTable | lorasimulator.py:104-109 | the table chosen for any bandwidth code has entries exactly for SF 6..12 |
| LoraTables.SensitivityDecreasing | lorasimulator.py:104-110 | for every bandwidth code the floor strictly decreases as the spreading factor rises |
| Airtime.CeilDiv | lorasimulator.py:77 | the ceiling of n/d is the least q with n/d <= q, for either sign of d |
| Airtime.CeilDivMonotone | lorasimulator.py:77 | for a positive divisor the ceiling quotient is monotone in the dividend |
| Airtime.Pow2 | lorasimulator.py:75 | pow(2, n) is positive, and for negative n it is the reciprocal of 2^-n |
| Airtime.SymbolTime | lorasimulator.py:75 | the symbol time is positive, and symbol time times bandwidth is 2^SF |
| Airtime.PayloadBlocks | lorasimulator.py:77 | the ceiling term is the least integer k with (8*PS - 4*SF + 24) / (4*SF) <= k, for either sign of SF |
| Airtime.Pow2Succ | lorasimulator.py:75 | pow(2, n+1) is twice pow(2, n) for every integer n, including negative n |
| Airtime.PayloadSymbols | lorasimulator.py:77 | the payload symbol count is never below 8 |
| Airtime.PayloadSymbolsMultiple | lorasimulator.py:77 | above 8, the payload symbol count is a whole number of codewords of CR+4 symbols |
| Airtime.PayloadSymbolsMonotone | lorasimulator.py:77 | a larger payload never needs fewer symbols |
| Airtime.PayloadSymbolsStep | lorasimulator.py:77 | raising SF by one at most halves the symbol count, up to one codeword |
| Airtime.SymbolTimeDoubles | lorasimulator.py:75 | the symbol time doubles with each step of SF |
| Airtime.SymbolTimeHalves | lorasimulator.py:75 | doubling the bandwidth halves the symbol time |
| Airtime.PacketTime | lorasimulator.py:75-78 | the packet time is positive for any nonzero SF and positive bandwidth |
| Airtime.TimeOnAir | lorasimulator.py:75-78 | the stepwise computation (symbol time via Hz, then preamble time plus payload time) equals (6 + 4.25 + payload symbols) * 2^SF / bandwidth |
| Airtime.PacketTimeHalvesWithBandwidth | lorasimulator.py:75-78 | doubling the bandwidth halves the packet time |
| Airtime.PacketTimeMonotoneInPayload | lorasimulator.py:77-78 | a larger payload never gives a shorter packet |
| Airtime.PacketTimeIncreasingInSpreadingFactor | lorasimulator.py:75-78 | for coding rates 1..4, one step up in SF strictly lengthens the packet |
| Airtime.PacketTimeStrictlyIncreasingInSpreadingFactor | lorasimulator.py:75-78 | for coding rates 1..4 the packet time strictly increases over any range of positive SF |
| Airtime.PacketTimeWholeMicroseconds | lorasimulator.py:75-79 | at 125/250/500 kHz and SF >= 1 the packet time is a whole number of thousandths of a ms |
| Rounding.RoundHalfEven | lorasimulator.py:79 | the result is within 1/2 of x, and a tie goes to the even integer |
| Rounding.Round3 | lorasimulator.py:79 | round(x, 3) is a whole number of thousandths within 0.0005 of x, and on a tie it is the even thousandth |
| Rounding.RoundHalfEvenMonotone | lorasimulator.py:79 | rounding to an integer preserves order |
| Rounding.Round3Monotone | lorasimulator.py:94 | rounding to three decimals preserves order |
| Rounding.Round3Exact | lorasimulator.py:79 | a whole number of thousandths is left unchanged |
| Rounding.Round3Idempotent | lorasimulator.py:115 | rounding twice is rounding once |
| LinkModel.EnergyMicroJoules | lorasimulator.py:94 | the energy of a positive time at a positive current is positive |
| LinkModel.EnergyMonotoneInCurrent | lorasimulator.py:94 | more current never gives less energy |
| LinkModel.TestParameters | lorasimulator.py:63-117 | success exactly when all three tables cover the input; otherwise the first failing step's error, in source order. On success: parameters echoed, bandwidth as looked up, path loss = power - floor (within 109..157 dB), RSSI = floor + gains, distance = rounded channel value |
| LinkModel.TestParametersTiming | lorasimulator.py:75-94 | on success the packet time equals the airtime formula (rounding leaves it unchanged), and the energy is the rounded time x current x 3.3 V / 1000, which is non-negative |
| LinkModel.EnergyNonDecreasingInPower | lorasimulator.py:83-94 | with everything else fixed, a higher power never costs less energy |
| LinkModel.MaxPathLossIncreasingInPower | lorasimulator.py:113 | a higher power gives a strictly larger path loss |
| LinkModel.MaxPathLossIncreasingInSpreadingFactor | lorasimulator.py:104-113 | a higher SF gives a strictly larger path loss, for every bandwidth |
| LinkModel.RssiIndependentOfPower | lorasimulator.py:113-114 | the RSSI does not depend on the programmed power |
| LinkModel.PacketTimeHalvesPerBandwidthCode | lorasimulator.py:71-79 | the next bandwidth code halves the row's packet time |
| LinkModel.PacketTimeIncreasingInSpreadingFactorOfRow | lorasimulator.py:75-79 | for coding rates 1..4, a higher SF gives a strictly longer packet |
| LinkModel.WorkedExample | lorasimulator.py:59 | tuple (12,1,14,1,4,1,1,0,32) gives path loss 151, RSSI -137, 1417.216 ms and 205.78 uJ |
| Selection.Feasible | lorasimulator.py:163 | the strict box; a feasible row can exist only when both the energy range and the distance range are non-empty |
| Selection.Score | lorasimulator.py:164 | with a non-negative power weighting and non-negative energy, the score never exceeds the weighted distance |
| Selection.Step | lorasimulator.py:163-169 | one loop iteration as written. An infeasible row changes nothing, and a feasible row always sets the score. While the score is unset the best does not change. A changed best is the current feasible row, and the score never decreases |
| Selection.RunPrefix | lorasimulator.py:160-169 | after any prefix, a recorded best is a feasible row of that prefix |
| Selection.Select | lorasimulator.py:160-172 | the selection as written: a returned row is feasible and is one of the rows; otherwise ValueError |
| Selection.RunPrefixInvariant | lorasimulator.py:160-169 | after n rows: the score is unset iff no feasible row was seen. Once set, it is the score of the earliest maximal row; that row is the best unless it is the first feasible row, in which case no best is recorded |
| Selection.SelectSound | lorasimulator.py:160-172 | a returned row is feasible, scores at least as high as every feasible row, is the earliest such row, and comes after the first feasible row |
| Selection.SelectFailsIff | lorasimulator.py:160-172 | ValueError is raised exactly when no row is feasible or the first feasible row already has the maximal score |
| Selection.EmptyRegionFails | lorasimulator.py:163-172 | an empty energy range always raises ValueError |
| Selection.StepIntended | lorasimulator.py:163-169 | corrected iteration. An infeasible row changes nothing, and the first feasible row becomes the best. A changed best is the current feasible row, and the score never decreases |
| Selection.RunPrefixIntended | lorasimulator.py:160-169 | corrected loop: the best is unset exactly when the score is unset, and a recorded best is a feasible row of the prefix |
| Selection.SelectIntended | lorasimulator.py:160-172 | corrected selection: a returned row is feasible and is one of the rows |
| Selection.RunPrefixIntendedInvariant | lorasimulator.py:160-169 | corrected loop: the best is unset iff no feasible row was seen, and otherwise is the earliest maximal row |
| Selection.SelectIntendedCorrect | lorasimulator.py:160-172 | corrected selection: fails exactly when no row is feasible, and otherwise returns the earliest maximal feasible row |
| Selection.SelectAgreesWithIntended | lorasimulator.py:160-172 | whenever the selection as written returns a row, the corrected selection returns the same row |
| Selection.SingleFeasibleRowRejected | lorasimulator.py:165-172 | with exactly one feasible row, the selection as written raises ValueError and the corrected selection returns that row |
| Optimiser.GridParams | lorasimulator.py:129-149 | every grid point is covered by all tables, with power 0..20, coding rate 1 and the caller's environment |
| Optimiser.GridIndexRoundTrip | lorasimulator.py:136-148 | every (power, SF, bandwidth code) triple of the sweep sits at its index in the grid |
| Optimiser.GridParamsRoundTrip | lorasimulator.py:136-148 | every grid position holds exactly the triple whose index it is |
| Optimiser.GridOrder | lorasimulator.py:136-148 | rows appear in lexicographic order of (power, SF, bandwidth code), with bandwidth innermost |
| Optimiser.GridRows | lorasimulator.py:136-149 | the grid of results has exactly 441 rows |
| Optimiser.GridRowsEvaluate | lorasimulator.py:142 | every grid row is the successful evaluation of its triple: no grid point raises |
| Optimiser.GridStep | lorasimulator.py:141-143 | evaluating the next triple extends the prefix of grid rows by one row |
| Optimiser.EnumerateGrid | lorasimulator.py:129-149 | the nested loops produce exactly the 441 grid rows, in order |
| Optimiser.ParameterOptimisation | lorasimulator.py:128-182 | returns all grid rows and a best row that is feasible, maximal and the earliest maximal. Fails exactly when no row is feasible or the first feasible row is maximal; always fails on an empty energy range |
| Optimiser.ParameterOptimisationIntended | lorasimulator.py:160-172 | with the corrected selection, over the same grid: fails exactly when no grid row is feasible, and otherwise returns the earliest maximal feasible row |

## Left out

- Plane Earth channel (lines 38-40): `log10` and `pow` on floats are not modelled. The channel is a function parameter, so its domain errors for non-positive heights or NPE = 0 are not modelled either.
- `logDistance` (lines 44-47): not called by the core, and it refers to undefined names.
- Plotting (lines 150-158, 173-181): matplotlib output only, no effect on the result.
- Values computed and then discarded: `energy_uC` (line 92, except that its current look-up is the power error), the CAD currents, `totalCAD`, `powerCAD`, `ackSymbNb` and `ackTime` (lines 85-101). For an input that got past the energy at line 94, none of them can raise: the CAD tables are indexed by a bandwidth already looked up, and the division by 4*SF already succeeded at line 77. So after the power look-up the next possible error is the spreading-factor miss at line 110.
- Floating point: every quantity is an exact real. Effects not modelled: `float()` conversions; the binary error in `round(x, 3)`, which can send a near-tie the other way than exact half-to-even does; `pow(2, SF)` overflow or underflow for huge |SF|; `math.ceil` of an inexact quotient for huge payloads.
- LinkModel.TestParametersTiming: states energy >= 0 rather than > 0. For tabled inputs the rounded energy is positive, but no lower bound on the packet time is proved.
- Airtime.PacketTimeIncreasingInSpreadingFactor: stated only for coding rates 1..4 (line 50) and positive SF, because the proof bounds the drop in payload symbols by one codeword of at most 8 symbols.
- Airtime.PacketTimeStrictlyIncreasingInSpreadingFactor: stated only for coding rates 1..4 (line 50) and positive SF, because the proof bounds the drop in payload symbols by one codeword of at most 8 symbols.
- LinkModel.PacketTimeIncreasingInSpreadingFactorOfRow: stated only for coding rates 1..4 (line 50) and positive SF, because the proof bounds the drop in payload symbols by one codeword of at most 8 symbols.
- Airtime.PayloadSymbolsMultiple: stated only for CR+4 > 0 and nonzero SF; the source documents coding rates 1..4.
- Airtime.PayloadSymbolsMonotone: stated only for CR+4 >= 0 and SF > 0; the source documents coding rates 1..4 and spreading factors 6..12.
- The comments at lines 120 and 125 call the optimiser's energy bounds a "charge per byte". The code filters and scores on row index 1, which is `energy_uJ`, the energy in microjoules per packet. The model follows the code.

## Findings

| source | as written | input that shows it | evidently intended | confidence | as-written member | corrected member |
|---|---|---|---|---|---|---|
| lorasimulator.py:165-169 | the first feasible row sets `currentScore` but never `currentBest`; a later row becomes the best only if it scores strictly higher, so `ValueError` is raised when the first feasible row is the best | a region whose energy and distance bounds admit exactly one grid row, or one whose best-scoring feasible row comes first in grid order | return the feasible row of maximal score, raising `ValueError` only when no row is feasible | not executed; high (the loop is short and the failure needs one feasible row only) | Selection.SingleFeasibleRowRejected | Selection.SelectIntendedCorrect |

`Optimiser.ParameterOptimisation` keeps the selection as written, which is
the system's observable behaviour. `Optimiser.ParameterOptimisationIntended`
runs the same grid with `Selection.SelectIntended`.
`Selection.SelectAgreesWithIntended` shows that the two differ only where
the as-written loop raises.
