/** Time on air of one LoRa packet, after the Semtech SX1272/SX1276 LoRa
    calculator formula used by testParameters. Values are exact: the
    simulator's final rounding to three decimals is not part of this module. */
module Airtime {

  /** Explicit header flag H of the formula, fixed to 1 by the simulator. */
  const ExplicitHeader: int := 1
  /** Low data rate optimisation flag DE, fixed to 0 (disabled). */
  const LowDataRateOptimise: int := 0
  /** Number of programmed preamble symbols. */
  const PreambleSymbols: int := 6

  /** 2^n as a natural number. */
  function TwoToThe(n: nat): (r: nat)
    ensures r >= 1
  {
    if n == 0 then 1 else 2 * TwoToThe(n - 1)
  }

  /** Python's `pow(2, n)` for any integer n: an integer for n >= 0 and the
      fraction 1 / 2^-n for negative n. */
  function Pow2(n: int): (r: real)
    ensures r > 0.0
    ensures n < 0 ==> r * TwoToThe(-n) as real == 1.0
  {
    if n >= 0 then TwoToThe(n) as real else 1.0 / TwoToThe(-n) as real
  }

  /** Raising the exponent by one doubles the power of two. */
  lemma Pow2Succ(n: int)
    ensures Pow2(n + 1) == 2.0 * Pow2(n)
  {
    if n < -1 {
      assert TwoToThe(-n) == 2 * TwoToThe(-n - 1);
    }
  }

  /** a <= b scales to a * c <= b * c for a non-negative factor c. */
  lemma MulLe(a: int, b: int, c: int)
    requires a <= b && c >= 0
    ensures a * c <= b * c
  {
    assert b * c - a * c == (b - a) * c;
  }

  /** A strict inequality between multiples of a positive d cancels d. */
  lemma MulLtCancel(a: int, b: int, d: int)
    requires d > 0 && a * d < b * d
    ensures a < b
  {
    assert (b - a) * d > 0;
  }

  /** `math.ceil(n / d)`: the least integer q with n / d <= q. */
  function CeilDiv(n: int, d: int): (q: int)
    requires d != 0
    ensures d > 0 ==> (q - 1) * d < n <= q * d
    ensures d < 0 ==> q * d <= n < (q - 1) * d
  {
    if d > 0 then -((-n) / d) else -(n / -d)
  }

  /** For a positive divisor the ceiling quotient is monotone in the dividend. */
  lemma CeilDivMonotone(n1: int, n2: int, d: int)
    requires d > 0 && n1 <= n2
    ensures CeilDiv(n1, d) <= CeilDiv(n2, d)
  {
    MulLtCancel(CeilDiv(n1, d) - 1, CeilDiv(n2, d), d);
  }

  /** The number of coding blocks of the payload: the ceiling term of the
      formula, with the fixed header and data-rate flags substituted. */
  function PayloadBlocks(sf: int, ps: int): (k: int)
    requires sf != 0
    ensures sf > 0 ==> (k - 1) * (4 * sf) < 8 * ps - 4 * sf + 24 <= k * (4 * sf)
    ensures sf < 0 ==> k * (4 * sf) <= 8 * ps - 4 * sf + 24 < (k - 1) * (4 * sf)
  {
    CeilDiv(8 * ps - 4 * sf + 28 + 16 - 20 * ExplicitHeader,
            4 * (sf - 2 * LowDataRateOptimise))
  }

  /** The number of payload symbols, payloadSymbNb, for spreading factor sf,
      coding rate cr and ps payload bytes: eight symbols plus cr + 4 symbols
      per coding block, never fewer than eight. The division by 4 * sf fails
      when sf is 0, so the caller must exclude it. */
  function PayloadSymbols(sf: int, cr: int, ps: int): (n: int)
    requires sf != 0
    ensures n >= 8
  {
    var extra := PayloadBlocks(sf, ps) * (cr + 4);
    8 + (if extra > 0 then extra else 0)
  }

  /** The payload symbols exceed eight by a non-negative multiple k of the
      coding-block length cr + 4. */
  lemma PayloadSymbolsMultiple(sf: int, cr: int, ps: int) returns (k: nat)
    requires sf != 0 && cr + 4 > 0
    ensures PayloadSymbols(sf, cr, ps) == 8 + k * (cr + 4)
  {
    var b := PayloadBlocks(sf, ps);
    if b * (cr + 4) > 0 {
      MulLtCancel(0, b, cr + 4);
      k := b;
    } else {
      k := 0;
    }
  }

  /** More payload bytes never need fewer payload symbols. */
  lemma PayloadSymbolsMonotone(sf: int, cr: int, ps1: int, ps2: int)
    requires sf > 0 && cr + 4 >= 0 && ps1 <= ps2
    ensures PayloadSymbols(sf, cr, ps1) <= PayloadSymbols(sf, cr, ps2)
  {
    CeilDivMonotone(8 * ps1 - 4 * sf + 24, 8 * ps2 - 4 * sf + 24, 4 * sf);
    MulLe(PayloadBlocks(sf, ps1), PayloadBlocks(sf, ps2), cr + 4);
  }

  /** Duration of one symbol in ms, 2^sf / bandwidth in kHz. */
  function SymbolTime(sf: int, bwKHz: int): (t: real)
    requires bwKHz > 0
    ensures t > 0.0
    ensures t * bwKHz as real == Pow2(sf)
  {
    Pow2(sf) / bwKHz as real
  }

  /** One step up in spreading factor doubles the symbol time. */
  lemma SymbolTimeDoubles(sf: int, bwKHz: int)
    requires bwKHz > 0
    ensures SymbolTime(sf + 1, bwKHz) == 2.0 * SymbolTime(sf, bwKHz)
  {
    Pow2Succ(sf);
  }

  /** Doubling the bandwidth halves the symbol time. */
  lemma SymbolTimeHalves(sf: int, bwKHz: int)
    requires bwKHz > 0
    ensures SymbolTime(sf, 2 * bwKHz) == SymbolTime(sf, bwKHz) / 2.0
  {
  }

  /** a <= b scales to a * k <= b * k for a non-negative real k. */
  lemma RealMulLe(a: real, b: real, k: real)
    requires a <= b && k >= 0.0
    ensures a * k <= b * k
  {
    assert b * k - a * k == (b - a) * k;
  }

  /** a < b scales to a * k < b * k for a positive real k. */
  lemma RealMulLt(a: real, b: real, k: real)
    requires a < b && k > 0.0
    ensures a * k < b * k
  {
    assert b * k - a * k == (b - a) * k;
  }

  /** Duration in ms of a packet with the given number of payload symbols
      of tSym ms each, after the 6 + 4.25 symbol preamble. */
  function Duration(payloadSymbols: int, tSym: real): real
  {
    (PreambleSymbols as real + 4.25 + payloadSymbols as real) * tSym
  }

  /** Packet time in ms (Tpacket before rounding) for spreading factor sf,
      coding rate cr, bandwidth bwKHz in kHz and ps payload bytes. */
  function PacketTime(sf: int, cr: int, bwKHz: int, ps: int): (t: real)
    requires sf != 0 && bwKHz > 0
    ensures t > 0.0
  {
    var k := SymbolTime(sf, bwKHz);
    var n := PayloadSymbols(sf, cr, ps);
    assert Duration(n, k) > 0.0 by {
      RealMulLt(0.0, PreambleSymbols as real + 4.25 + n as real, k);
    }
    Duration(n, k)
  }

  /** The packet time as the simulator computes it, step by step: symbol
      time from the bandwidth in Hz scaled back to ms, preamble time, payload
      time, their sum. It is exactly (6 + 4.25 + payloadSymbNb) * 2^sf /
      bandwidth. */
  function TimeOnAir(sf: int, cr: int, bwKHz: int, ps: int): (t: real)
    requires sf != 0 && bwKHz > 0
    ensures t == (PreambleSymbols as real + 4.25 + PayloadSymbols(sf, cr, ps) as real)
                 * Pow2(sf) / bwKHz as real
    ensures t == PacketTime(sf, cr, bwKHz, ps)
  {
    var tSym := Pow2(sf) / (bwKHz as real * 1000.0) * 1000.0;
    var tPreamble := (PreambleSymbols as real + 4.25) * tSym;
    var tPayload := PayloadSymbols(sf, cr, ps) as real * tSym;
    tPreamble + tPayload
  }

  /** At a fixed symbol time, more payload symbols last no shorter. */
  lemma DurationMonotone(n1: int, n2: int, k: real)
    requires n1 <= n2 && k >= 0.0
    ensures Duration(n1, k) <= Duration(n2, k)
  {
    RealMulLe(PreambleSymbols as real + 4.25 + n1 as real,
              PreambleSymbols as real + 4.25 + n2 as real, k);
  }

  /** Halving the symbol time halves the duration. */
  lemma DurationHalves(n: int, k: real)
    ensures Duration(n, k / 2.0) * 2.0 == Duration(n, k)
  {
  }

  /** At most twice the payload symbols at twice the symbol time is strictly
      longer. */
  lemma DurationDoubledSymbolTime(n0: int, n1: int, k: real)
    requires k > 0.0 && n0 <= 2 * n1
    ensures Duration(n0, k) < Duration(n1, 2.0 * k)
  {
    var a0 := PreambleSymbols as real + 4.25 + n0 as real;
    var a1 := PreambleSymbols as real + 4.25 + n1 as real;
    assert a1 * (2.0 * k) == (2.0 * a1) * k;
    RealMulLt(a0, 2.0 * a1, k);
  }

  /** Doubling the bandwidth halves the packet time. */
  lemma PacketTimeHalvesWithBandwidth(sf: int, cr: int, bwKHz: int, ps: int)
    requires sf != 0 && bwKHz > 0
    ensures PacketTime(sf, cr, 2 * bwKHz, ps) * 2.0 == PacketTime(sf, cr, bwKHz, ps)
  {
    SymbolTimeHalves(sf, bwKHz);
    DurationHalves(PayloadSymbols(sf, cr, ps), SymbolTime(sf, bwKHz));
  }

  /** Packet time is non-decreasing in the payload size. */
  lemma PacketTimeMonotoneInPayload(sf: int, cr: int, bwKHz: int, ps1: int, ps2: int)
    requires sf > 0 && cr + 4 >= 0 && bwKHz > 0 && ps1 <= ps2
    ensures PacketTime(sf, cr, bwKHz, ps1) <= PacketTime(sf, cr, bwKHz, ps2)
  {
    PayloadSymbolsMonotone(sf, cr, ps1, ps2);
    DurationMonotone(PayloadSymbols(sf, cr, ps1), PayloadSymbols(sf, cr, ps2), SymbolTime(sf, bwKHz));
  }

  /** Coding blocks at spreading factor sf are at most twice those at
      sf + 1 plus one, or none at all. */
  lemma PayloadBlocksStep(sf: int, ps: int)
    requires sf >= 1
    ensures PayloadBlocks(sf, ps) <= 0
            || PayloadBlocks(sf, ps) <= 2 * PayloadBlocks(sf + 1, ps) + 1
  {
    var a := 8 * ps + 24;
    var k0 := PayloadBlocks(sf, ps);
    var k1 := PayloadBlocks(sf + 1, ps);
    assert (k0 - 1) * (4 * sf) < a - 4 * sf;
    assert a - 4 * (sf + 1) <= k1 * (4 * (sf + 1));
    assert a <= (k1 + 1) * (4 * (sf + 1));
    if k1 >= -1 {
      MulLe(4 * (sf + 1), 8 * sf, k1 + 1);
      assert a - 4 * sf <= (2 * k1 + 1) * (4 * sf);
      MulLtCancel(k0 - 1, 2 * k1 + 1, 4 * sf);
    } else {
      MulLe(k1 + 1, -1, 4 * (sf + 1));
      MulLtCancel(k0 - 1, 0, 4 * sf);
    }
  }

  /** Payload symbols beyond eight at spreading factor sf are at most twice
      those at sf + 1 plus one coding block; with at most 8 symbols per block
      that is at most twice the symbols at sf + 1. */
  lemma PayloadSymbolsStep(sf: int, cr: int, ps: int)
    requires sf >= 1 && 1 <= cr <= 4
    ensures PayloadSymbols(sf, cr, ps) - 8
            <= 2 * (PayloadSymbols(sf + 1, cr, ps) - 8) + (cr + 4)
    ensures PayloadSymbols(sf, cr, ps) <= 2 * PayloadSymbols(sf + 1, cr, ps)
  {
    var c := cr + 4;
    var k0 := PayloadBlocks(sf, ps);
    var k1 := PayloadBlocks(sf + 1, ps);
    PayloadBlocksStep(sf, ps);
    if k0 <= 0 {
      MulLe(k0, 0, c);
    } else {
      MulLe(k0, 2 * k1 + 1, c);
      MulLe(0, k1, c);
    }
  }

  /** With bandwidth fixed, one step up in spreading factor strictly
      lengthens the packet. */
  lemma PacketTimeIncreasingInSpreadingFactor(sf: int, cr: int, bwKHz: int, ps: int)
    requires sf >= 1 && 1 <= cr <= 4 && bwKHz > 0
    ensures PacketTime(sf, cr, bwKHz, ps) < PacketTime(sf + 1, cr, bwKHz, ps)
  {
    PayloadSymbolsStep(sf, cr, ps);
    SymbolTimeDoubles(sf, bwKHz);
    DurationDoubledSymbolTime(PayloadSymbols(sf, cr, ps), PayloadSymbols(sf + 1, cr, ps),
                              SymbolTime(sf, bwKHz));
  }

  /** Over any range of positive spreading factors, a higher spreading
      factor gives a strictly longer packet. */
  lemma {:induction false} PacketTimeStrictlyIncreasingInSpreadingFactor(
    sf1: int, sf2: int, cr: int, bwKHz: int, ps: int)
    requires 1 <= sf1 < sf2 && 1 <= cr <= 4 && bwKHz > 0
    ensures PacketTime(sf1, cr, bwKHz, ps) < PacketTime(sf2, cr, bwKHz, ps)
    decreases sf2 - sf1
  {
    PacketTimeIncreasingInSpreadingFactor(sf2 - 1, cr, bwKHz, ps);
    if sf1 < sf2 - 1 {
      PacketTimeStrictlyIncreasingInSpreadingFactor(sf1, sf2 - 1, cr, bwKHz, ps);
    }
  }

  /** Multiplication commutes with the conversion from int to real. */
  lemma CastMul(a: int, b: int)
    ensures (a * b) as real == a as real * b as real
  {
  }

  /** The arithmetic step behind PacketTimeWholeMicroseconds: with
      p == 2h and c * bw == 500, a packet of n payload symbols of p / bw ms
      lasts (41 + 4n) * h * c thousandths of a ms. */
  lemma ThousandthsStep(n: int, p: real, h: int, bw: int, c: int)
    requires bw > 0 && c * bw == 500 && p == 2.0 * h as real
    ensures Duration(n, p / bw as real) == ((41 + 4 * n) * h * c) as real / 1000.0
  {
    CastMul(41 + 4 * n, h);
    CastMul((41 + 4 * n) * h, c);
    CastMul(c, bw);
    var a := (41 + 4 * n) as real * h as real;
    assert (10.25 + n as real) * p == a / 2.0;
    assert c as real == 500.0 / bw as real;
    assert a * c as real / 1000.0 == a / (2.0 * bw as real);
  }

  /** For spreading factors of at least 1 and the bandwidths 125, 250 and
      500 kHz the packet time is a whole number of microseconds, so the
      simulator's rounding to three decimals leaves it unchanged. */
  lemma PacketTimeWholeMicroseconds(sf: int, cr: int, bwKHz: int, ps: int) returns (m: int)
    requires sf >= 1 && (bwKHz == 125 || bwKHz == 250 || bwKHz == 500)
    ensures PacketTime(sf, cr, bwKHz, ps) == m as real / 1000.0
  {
    var n := PayloadSymbols(sf, cr, ps);
    var h := TwoToThe(sf - 1);
    var c := 500 / bwKHz;
    assert Pow2(sf) == 2.0 * h as real;
    ThousandthsStep(n, Pow2(sf), h, bwKHz, c);
    m := (41 + 4 * n) * h * c;
  }
}
