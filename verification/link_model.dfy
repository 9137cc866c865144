/** The link model of lorasimulator.py (`testParameters`): one LoRa parameter
    tuple in, one fixed-order result row out, or the look-up error the
    simulator raises. */
module LinkModel {
  import opened Wrappers
  import opened LoraTables
  import opened Airtime
  import opened Rounding

  /** Supply voltage used to turn charge into energy. */
  const SupplyVolts: real := 3.3

  /** The arguments of testParameters, in its argument order. */
  datatype LinkParams = LinkParams(
    spreadingFactor: int,
    codingRate: int,
    programmedPower: int,
    bandwidthCode: int,
    npe: real,
    hTransmit: real,
    hReceive: real,
    gains: real,
    payload: int)

  /** The result row of testParameters. The field order is the row's
      positional layout: index 0 is the maximum distance in km and index 1
      the energy per packet in microjoules, the two entries the optimiser
      filters and scores on. */
  datatype LinkResult = LinkResult(
    maxDistKm: real,
    energyMicroJ: real,
    spreadingFactor: int,
    codingRate: int,
    bandwidthKHz: int,
    programmedPower: int,
    maxPathLoss: int,
    rssi: real,
    packetTimeMs: real,
    payload: int)

  /** The errors testParameters can raise, in the order it can raise them:
      a bandwidth code missing from the bandwidth table, a division by zero
      in the payload-symbol count when the spreading factor is 0, a power
      missing from the transmit-current table, a spreading factor missing
      from the sensitivity table. */
  datatype LinkError =
    | UnknownBandwidth(code: int)
    | DivisionByZero
    | UnknownPower(dBm: int)
    | UnknownSpreadingFactor(sf: int)

  /** The Plane Earth channel model, maximum path loss (dB), transmit and
      receive antenna heights (m) and terrain exponent NPE to maximum
      distance in km, before rounding. It is a parameter: its logarithm and
      power are floating point and are not modelled. */
  type Channel = (real, real, real, real) -> real

  /** The parameters every table has an entry for. */
  predicate InTables(p: LinkParams)
  {
    && 1 <= p.bandwidthCode <= 3
    && 6 <= p.spreadingFactor <= 12
    && -2 <= p.programmedPower <= 20
  }

  /** Energy in microjoules to send one packet of tPacket ms at a supply
      current of currentMilliAmps: time times current times voltage. */
  function EnergyMicroJoules(tPacket: real, currentMilliAmps: int): (e: real)
    ensures tPacket > 0.0 && currentMilliAmps > 0 ==> e > 0.0
  {
    var charge := tPacket * currentMilliAmps as real;
    assert tPacket > 0.0 && currentMilliAmps > 0 ==> charge > 0.0 by {
      if tPacket > 0.0 && currentMilliAmps > 0 {
        RealMulLt(0.0, currentMilliAmps as real, tPacket);
      }
    }
    charge * SupplyVolts / 1000.0
  }

  /** For a fixed packet time, more supply current never means less energy. */
  lemma EnergyMonotoneInCurrent(tPacket: real, c1: int, c2: int)
    requires tPacket >= 0.0 && c1 <= c2
    ensures EnergyMicroJoules(tPacket, c1) <= EnergyMicroJoules(tPacket, c2)
  {
    RealMulLe(c1 as real, c2 as real, tPacket);
    assert tPacket * c1 as real <= tPacket * c2 as real;
    RealMulLe(tPacket * c1 as real, tPacket * c2 as real, SupplyVolts / 1000.0);
  }

  /** testParameters: evaluate one parameter tuple. */
  function TestParameters(p: LinkParams, planeEarth: Channel): (r: Result<LinkResult, LinkError>)
    ensures r.Success? <==> InTables(p)
    ensures !(1 <= p.bandwidthCode <= 3) ==> r == Failure(UnknownBandwidth(p.bandwidthCode))
    ensures 1 <= p.bandwidthCode <= 3 && p.spreadingFactor == 0 ==> r == Failure(DivisionByZero)
    ensures 1 <= p.bandwidthCode <= 3 && p.spreadingFactor != 0 && !(-2 <= p.programmedPower <= 20)
            ==> r == Failure(UnknownPower(p.programmedPower))
    ensures 1 <= p.bandwidthCode <= 3 && p.spreadingFactor != 0 && -2 <= p.programmedPower <= 20
            && !(6 <= p.spreadingFactor <= 12)
            ==> r == Failure(UnknownSpreadingFactor(p.spreadingFactor))
    ensures r.Success? ==>
      && r.value.spreadingFactor == p.spreadingFactor
      && r.value.codingRate == p.codingRate
      && r.value.programmedPower == p.programmedPower
      && r.value.payload == p.payload
      && LookupBandwidth(p.bandwidthCode) == Some(r.value.bandwidthKHz)
    ensures r.Success? ==>
      && r.value.maxPathLoss == p.programmedPower - Sensitivity(p.bandwidthCode, p.spreadingFactor)
      && 109 <= r.value.maxPathLoss <= 157
    ensures r.Success? ==>
      r.value.rssi == Sensitivity(p.bandwidthCode, p.spreadingFactor) as real + p.gains
    ensures r.Success? ==>
      r.value.maxDistKm == Round3(planeEarth(r.value.maxPathLoss as real, p.hTransmit, p.hReceive, p.npe))
  {
    match LookupBandwidth(p.bandwidthCode)
    case None => Failure(UnknownBandwidth(p.bandwidthCode))
    case Some(bw) =>
      if p.spreadingFactor == 0 then Failure(DivisionByZero)
      else
        var tPacket := Round3(PacketTime(p.spreadingFactor, p.codingRate, bw, p.payload));
        match LookupTransmitCurrent(p.programmedPower)
        case None => Failure(UnknownPower(p.programmedPower))
        case Some(current) =>
          var energy := Round3(EnergyMicroJoules(tPacket, current));
          match LookupSensitivity(p.bandwidthCode, p.spreadingFactor)
          case None => Failure(UnknownSpreadingFactor(p.spreadingFactor))
          case Some(floor) =>
            var maxPathLoss := p.programmedPower - floor;
            var rssi := p.programmedPower as real + p.gains - maxPathLoss as real;
            var maxDist := Round3(planeEarth(maxPathLoss as real, p.hTransmit, p.hReceive, p.npe));
            Success(LinkResult(maxDist, energy, p.spreadingFactor, p.codingRate, bw,
                               p.programmedPower, maxPathLoss, rssi, tPacket, p.payload))
  }

  /** The timing and energy entries of a successful row: the packet time
      of the airtime formula at the looked-up bandwidth, which rounding to
      three decimals leaves unchanged, and the energy of that time at the
      looked-up transmit current, rounded to three decimals. */
  lemma TestParametersTiming(p: LinkParams, planeEarth: Channel)
    requires InTables(p)
    ensures var row := TestParameters(p, planeEarth).value;
      && row.packetTimeMs
         == PacketTime(p.spreadingFactor, p.codingRate, LookupBandwidth(p.bandwidthCode).value, p.payload)
      && row.energyMicroJ
         == Round3(EnergyMicroJoules(row.packetTimeMs, TransmitCurrent(p.programmedPower)))
      && row.energyMicroJ >= 0.0
  {
    var bw := LookupBandwidth(p.bandwidthCode).value;
    var t := PacketTime(p.spreadingFactor, p.codingRate, bw, p.payload);
    var m := PacketTimeWholeMicroseconds(p.spreadingFactor, p.codingRate, bw, p.payload);
    Round3Exact(m);
    Round3Exact(0);
    Round3Monotone(0.0, EnergyMicroJoules(t, TransmitCurrent(p.programmedPower)));
  }

  /** With spreading factor, bandwidth, coding rate and payload fixed, a
      higher programmed power never costs less energy per packet. */
  lemma EnergyNonDecreasingInPower(p: LinkParams, power: int, planeEarth: Channel)
    requires InTables(p) && InTables(p.(programmedPower := power))
    requires p.programmedPower <= power
    ensures TestParameters(p, planeEarth).value.energyMicroJ
            <= TestParameters(p.(programmedPower := power), planeEarth).value.energyMicroJ
  {
    var t := TestParameters(p, planeEarth).value.packetTimeMs;
    TestParametersTiming(p, planeEarth);
    TestParametersTiming(p.(programmedPower := power), planeEarth);
    TransmitCurrentNonDecreasing(p.programmedPower, power);
    EnergyMonotoneInCurrent(t, TransmitCurrent(p.programmedPower),
                            TransmitCurrent(power));
    Round3Monotone(EnergyMicroJoules(t, TransmitCurrent(p.programmedPower)),
                   EnergyMicroJoules(t, TransmitCurrent(power)));
  }

  /** A higher programmed power gives a strictly larger maximum path loss. */
  lemma MaxPathLossIncreasingInPower(p: LinkParams, power: int, planeEarth: Channel)
    requires InTables(p) && InTables(p.(programmedPower := power))
    requires p.programmedPower < power
    ensures TestParameters(p, planeEarth).value.maxPathLoss
            < TestParameters(p.(programmedPower := power), planeEarth).value.maxPathLoss
  {
  }

  /** A higher spreading factor gives a strictly larger maximum path loss,
      for every bandwidth code. */
  lemma MaxPathLossIncreasingInSpreadingFactor(p: LinkParams, sf: int, planeEarth: Channel)
    requires InTables(p) && InTables(p.(spreadingFactor := sf))
    requires p.spreadingFactor < sf
    ensures TestParameters(p, planeEarth).value.maxPathLoss
            < TestParameters(p.(spreadingFactor := sf), planeEarth).value.maxPathLoss
  {
    SensitivityDecreasing(p.bandwidthCode, p.spreadingFactor, sf);
  }

  /** The received signal strength does not depend on the programmed power:
      the power added and the path loss subtracted cancel. */
  lemma RssiIndependentOfPower(p: LinkParams, power: int, planeEarth: Channel)
    requires InTables(p) && InTables(p.(programmedPower := power))
    ensures TestParameters(p, planeEarth).value.rssi
            == TestParameters(p.(programmedPower := power), planeEarth).value.rssi
  {
  }

  /** Moving from one bandwidth code to the next doubles the bandwidth and
      halves the packet time. */
  lemma PacketTimeHalvesPerBandwidthCode(p: LinkParams, planeEarth: Channel)
    requires InTables(p) && p.bandwidthCode < 3
    ensures TestParameters(p.(bandwidthCode := p.bandwidthCode + 1), planeEarth).value.packetTimeMs * 2.0
            == TestParameters(p, planeEarth).value.packetTimeMs
  {
    var bw := TestParameters(p, planeEarth).value.bandwidthKHz;
    assert TestParameters(p.(bandwidthCode := p.bandwidthCode + 1), planeEarth).value.bandwidthKHz
        == 2 * bw;
    TestParametersTiming(p, planeEarth);
    TestParametersTiming(p.(bandwidthCode := p.bandwidthCode + 1), planeEarth);
    PacketTimeHalvesWithBandwidth(p.spreadingFactor, p.codingRate, bw, p.payload);
  }

  /** With bandwidth fixed, a higher spreading factor gives a strictly
      longer packet. */
  lemma PacketTimeIncreasingInSpreadingFactorOfRow(p: LinkParams, sf: int, planeEarth: Channel)
    requires InTables(p) && InTables(p.(spreadingFactor := sf)) && 1 <= p.codingRate <= 4
    requires p.spreadingFactor < sf
    ensures TestParameters(p, planeEarth).value.packetTimeMs
            < TestParameters(p.(spreadingFactor := sf), planeEarth).value.packetTimeMs
  {
    var bw := LookupBandwidth(p.bandwidthCode).value;
    TestParametersTiming(p, planeEarth);
    TestParametersTiming(p.(spreadingFactor := sf), planeEarth);
    PacketTimeStrictlyIncreasingInSpreadingFactor(p.spreadingFactor, sf, p.codingRate, bw, p.payload);
  }

  /** The worked example: SF 12, CR 1, 14 dBm, 125 kHz, 32 payload bytes.
      The sensitivity floor is -137 dBm, so the maximum path loss is 151 dB;
      33 payload symbols of 32.768 ms give 1417.216 ms on air, and 44 mA at
      3.3 V give 205.7797632 uJ, which rounds to 205.78 uJ. */
  lemma WorkedExample(planeEarth: Channel)
    ensures TestParameters(LinkParams(12, 1, 14, 1, 4.0, 1.0, 1.0, 0.0, 32), planeEarth)
            == Success(LinkResult(Round3(planeEarth(151.0, 1.0, 1.0, 4.0)), 205.78, 12, 1, 125,
                                  14, 151, -137.0, 1417.216, 32))
  {
    assert PayloadBlocks(12, 32) == 5;
    assert PayloadSymbols(12, 1, 32) == 33;
    assert TwoToThe(12) == 4096;
    assert Round3(1417.216) == 1417.216 by { Round3Exact(1417216); }
    assert Round3(205.7797632) == 205.78 by { assert (205.7797632 * 1000.0).Floor == 205779; }
  }
}
