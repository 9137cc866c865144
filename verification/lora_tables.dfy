/** The fixed tables of the link model in lorasimulator.py: bandwidth codes,
    the SX1276 transmit current per programmed power and the receiver
    sensitivity floor per bandwidth and spreading factor. */
module LoraTables {
  import opened Wrappers

  /** Bandwidth code (1, 2 or 3) to channel bandwidth in kHz. */
  const BandwidthKHz: map<int, int> := map[1 := 125, 2 := 250, 3 := 500]

  /** Transmit supply current in mA for each programmed power in dBm
      (SX1276 datasheet, section 2.5.1 Power Consumption). */
  const TransmitCurrentMilliAmps: map<int, int> :=
    map[-2 := 22, -1 := 22, 0 := 22, 1 := 23, 2 := 24, 3 := 24, 4 := 24,
        5 := 25, 6 := 25, 7 := 25, 8 := 25, 9 := 26, 10 := 31, 11 := 32,
        12 := 34, 13 := 35, 14 := 44, 15 := 82, 16 := 85, 17 := 90,
        18 := 105, 19 := 115, 20 := 125]

  /** Receiver sensitivity floor in dBm per spreading factor, at 125 kHz. */
  const SensitivityBw125: map<int, int> :=
    map[6 := -121, 7 := -124, 8 := -127, 9 := -130, 10 := -133, 11 := -135, 12 := -137]

  /** Receiver sensitivity floor in dBm per spreading factor, at 250 kHz. */
  const SensitivityBw250: map<int, int> :=
    map[6 := -118, 7 := -122, 8 := -125, 9 := -128, 10 := -130, 11 := -132, 12 := -135]

  /** Receiver sensitivity floor in dBm per spreading factor, at 500 kHz. */
  const SensitivityBw500: map<int, int> :=
    map[6 := -111, 7 := -116, 8 := -119, 9 := -122, 10 := -125, 11 := -128, 12 := -129]

  /** The sensitivity table the simulator picks for a bandwidth code: code 1
      and code 2 have their own table, every other code gets the 500 kHz one. */
  function SensitivityTable(code: int): (t: map<int, int>)
    ensures forall sf :: sf in t <==> 6 <= sf <= 12
  {
    if code == 1 then SensitivityBw125
    else if code == 2 then SensitivityBw250
    else SensitivityBw500
  }

  /** Bandwidth in kHz for a bandwidth code; any code but 1, 2, 3 misses. */
  function LookupBandwidth(code: int): (r: Option<int>)
    ensures r.Some? <==> 1 <= code <= 3
    ensures r == Some(125) <==> code == 1
    ensures r == Some(250) <==> code == 2
    ensures r == Some(500) <==> code == 3
  {
    Lookup(BandwidthKHz, code)
  }

  /** Transmit current in mA at a programmed power of the table. */
  function TransmitCurrent(power: int): (current: int)
    requires -2 <= power <= 20
    ensures 22 <= current <= 125
  {
    TransmitCurrentMilliAmps[power]
  }

  /** Transmit current in mA for a programmed power; defined exactly on
      -2..20 dBm. */
  function LookupTransmitCurrent(power: int): (r: Option<int>)
    ensures r.Some? <==> -2 <= power <= 20
    ensures r.Some? ==> r.value == TransmitCurrent(power)
  {
    Lookup(TransmitCurrentMilliAmps, power)
  }

  /** Sensitivity floor in dBm for a bandwidth code and a spreading factor
      of the table. */
  function Sensitivity(code: int, sf: int): (floor: int)
    requires 6 <= sf <= 12
    ensures -137 <= floor <= -111
  {
    SensitivityTable(code)[sf]
  }

  /** Sensitivity floor in dBm for a bandwidth code and spreading factor;
      defined exactly on spreading factors 6..12 for every code. */
  function LookupSensitivity(code: int, sf: int): (r: Option<int>)
    ensures r.Some? <==> 6 <= sf <= 12
    ensures r.Some? ==> r.value == Sensitivity(code, sf)
  {
    Lookup(SensitivityTable(code), sf)
  }

  /** One step up in programmed power never draws less current. */
  lemma TransmitCurrentStep(power: int)
    requires -2 <= power < 20
    ensures TransmitCurrent(power) <= TransmitCurrent(power + 1)
  {
  }

  /** The transmit-current table is non-decreasing in programmed power. */
  lemma {:induction false} TransmitCurrentNonDecreasing(p1: int, p2: int)
    requires -2 <= p1 <= p2 <= 20
    ensures TransmitCurrent(p1) <= TransmitCurrent(p2)
    decreases p2 - p1
  {
    if p1 < p2 {
      TransmitCurrentNonDecreasing(p1, p2 - 1);
      TransmitCurrentStep(p2 - 1);
    }
  }

  /** One step up in spreading factor lowers the sensitivity floor. */
  lemma SensitivityStep(code: int, sf: int)
    requires 6 <= sf < 12
    ensures Sensitivity(code, sf) > Sensitivity(code, sf + 1)
  {
  }

  /** For every bandwidth code the sensitivity floor is strictly decreasing
      over spreading factors 6..12. */
  lemma {:induction false} SensitivityDecreasing(code: int, sf1: int, sf2: int)
    requires 6 <= sf1 < sf2 <= 12
    ensures Sensitivity(code, sf1) > Sensitivity(code, sf2)
    decreases sf2 - sf1
  {
    SensitivityStep(code, sf2 - 1);
    if sf1 < sf2 - 1 {
      SensitivityDecreasing(code, sf1, sf2 - 1);
    }
  }
}
