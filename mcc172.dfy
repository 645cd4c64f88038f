// The MCC 172 (lib/mcc172.c): 24-bit sample decoding, the ADC clock,
// trigger, IEPE and test-signal configuration bytes, and the scan start.
// The ring buffer itself is the shared ScanEngine.

module Mcc172 {
  import opened DaqHats
  import opened ScanEngine
  import Mcc118Start = Mcc118

  const NUM_CHANNELS: nat := 2
  const MAX_SAMPLE_RATE: nat := 51200
  const MAX_CODE: int := 8388607
  const MIN_CODE: int := -8388608
  const SOURCE_SLAVE: nat := 2

  // ---------------------------------------------------------------------
  // 24-bit samples

  /** Three big-endian bytes as the two's-complement 24-bit value they hold. */
  function SignExtend24(b0: Byte, b1: Byte, b2: Byte): (v: int)
    ensures MIN_CODE <= v <= MAX_CODE
    ensures v < 0 <==> b0 >= 0x80
    ensures (v - (0x1_0000 * b0 + 0x100 * b1 + b2)) % 0x100_0000 == 0
  {
    var raw := 0x1_0000 * b0 + 0x100 * b1 + b2;
    if b0 >= 0x80 then raw - 0x100_0000 else raw
  }

  /** The three big-endian bytes of a 24-bit code, the device's encoding. */
  function Encode24(v: int): (b: seq<Byte>)
    requires MIN_CODE <= v <= MAX_CODE
    ensures |b| == 3
  {
    var u := if v < 0 then v + 0x100_0000 else v;
    [u / 0x1_0000, (u / 0x100) % 0x100, u % 0x100]
  }

  /** Decoding undoes the device's encoding for every code in range. */
  lemma SignExtendRoundTrip(v: int)
    requires MIN_CODE <= v <= MAX_CODE
    ensures var b := Encode24(v); SignExtend24(b[0], b[1], b[2]) == v
  {
    var u := if v < 0 then v + 0x100_0000 else v;
    assert u == 0x1_0000 * (u / 0x1_0000) + 0x100 * ((u / 0x100) % 0x100) + u % 0x100 by {
      assert u == 0x100 * (u / 0x100) + u % 0x100;
      assert u / 0x100 == 0x100 * (u / 0x1_0000) + (u / 0x100) % 0x100;
    }
  }

  /** Encoding undoes decoding: every three bytes are some code's encoding. */
  lemma EncodeRoundTrip(b0: Byte, b1: Byte, b2: Byte)
    ensures Encode24(SignExtend24(b0, b1, b2)) == [b0, b1, b2]
  {
    var u := 0x1_0000 * b0 + 0x100 * b1 + b2;
    DivUnique(u, 0x1_0000, b0, 0x100 * b1 + b2);
    DivUnique(u, 0x100, 0x100 * b0 + b1, b2);
    DivUnique(0x100 * b0 + b1, 0x100, b0, b1);
  }

  /**
   * The decoding loop of _a_in_read_scan_data: sample k comes from bytes
   * 3k .. 3k+2 of the reply.
   */
  method DecodeSamples(rx: seq<Byte>, sampleCount: nat) returns (values: seq<int>)
    requires |rx| >= 3 * sampleCount
    ensures |values| == sampleCount
    ensures forall k :: 0 <= k < sampleCount ==>
      values[k] == SignExtend24(rx[3 * k], rx[3 * k + 1], rx[3 * k + 2])
  {
    values := [];
    var count := 0;
    while count < sampleCount
      invariant 0 <= count <= sampleCount && |values| == count
      invariant forall k :: 0 <= k < count ==>
        values[k] == SignExtend24(rx[3 * k], rx[3 * k + 1], rx[3 * k + 2])
    {
      var ptr := 3 * count;
      values := values + [SignExtend24(rx[ptr], rx[ptr + 1], rx[ptr + 2])];
      count := count + 1;
    }
  }

  // ---------------------------------------------------------------------
  // ADC clock configuration

  function MaxReal(a: real, b: real): real { if a < b then b else a }

  /**
   * The divider byte a_in_clock_config_write sends: the rate is raised to
   * at least 200 S/s, the divisor 51200 / rate is rounded to the nearest
   * whole number, clamped to 1 .. 256, and sent minus one.
   */
  function ClockDivider(rate: real): (b: Byte)
    ensures var d := MAX_SAMPLE_RATE as real / MaxReal(rate, 200.0);
      (d >= 0.5 ==> (b + 1) as real - 0.5 <= d < (b + 1) as real + 0.5) &&
      (d < 0.5 ==> b == 0)
  {
    var r := MaxReal(rate, 200.0);
    var d := MAX_SAMPLE_RATE as real / r;
    assert d * r == MAX_SAMPLE_RATE as real;
    assert d <= 256.0;
    var divisor := d + 0.5;
    var clamped := if divisor < 1.0 then 1.0 else if divisor > 256.0 then 256.0 else divisor;
    (clamped - 1.0).Floor
  }

  /** The clock configuration a_in_clock_config_read reports. */
  datatype ClockConfig = ClockConfig(source: nat, synced: bool, divider: nat, rate: real)

  /**
   * a_in_clock_config_read as written: the rate is
   * MAX_SAMPLE_RATE / clock_divider in integer arithmetic, truncated
   * before it becomes a double.
   */
  function ClockConfigReadAsWritten(b0: Byte, b1: Byte): (c: ClockConfig)
    ensures c.divider == b1 + 1 && c.rate == ((MAX_SAMPLE_RATE / c.divider) as real)
  {
    ClockConfig(b0 % 4, (b0 / 0x80) % 2 == 1, b1 + 1, (MAX_SAMPLE_RATE / (b1 + 1)) as real)
  }

  /**
   * a_in_clock_config_read: the source in bits 0-1, the sync flag in bit
   * 7, the divider one more than the second byte and the rate 51200 over
   * the divider.
   */
  function ClockConfigRead(b0: Byte, b1: Byte): (c: ClockConfig)
    ensures c.source == b0 % 4 && c.source <= 3
    ensures c.synced <==> b0 >= 0x80
    ensures 1 <= c.divider <= 256 && c.divider == b1 + 1
    ensures c.rate * c.divider as real == MAX_SAMPLE_RATE as real
    ensures 200.0 <= c.rate <= MAX_SAMPLE_RATE as real
  {
    var divider := b1 + 1;
    var rate := MAX_SAMPLE_RATE as real / divider as real;
    assert rate * divider as real == MAX_SAMPLE_RATE as real;
    ClockConfig(b0 % 4, b0 >= 0x80, divider, rate)
  }

  /** With divider 3, the rate read back as written (17066) is not 51200 / 3. */
  lemma ClockReadTruncates()
    ensures ClockConfigReadAsWritten(0, 2).rate == 17066.0
    ensures ClockConfigRead(0, 2).rate == 51200.0 / 3.0
    ensures ClockConfigReadAsWritten(0, 2).rate != ClockConfigRead(0, 2).rate
  {
  }

  /**
   * The scan start chooses the buffer tier and the read threshold from
   * the rate it reads back; those choices are the same for the truncated
   * and the exact rate, so the correction changes only the reported rate.
   */
  lemma TruncationKeepsScanChoices(b1: Byte, channelCount: nat)
    requires 0 < channelCount <= NUM_CHANNELS
    ensures var exact := ClockConfigRead(0, b1).rate;
      var truncated := ClockConfigReadAsWritten(0, b1).rate;
      ContinuousTier(exact) == ContinuousTier(truncated) &&
      ReadThreshold(exact, channelCount) == ReadThreshold(truncated, channelCount)
  {
    var k := b1 + 1;
    var exact := ClockConfigRead(0, b1).rate;
    var q := MAX_SAMPLE_RATE / k;
    TruncatedBounds(k, exact, q);
    TierBoundary(k, exact, 50, 1024);
    TierBoundary(k, exact, 5, 10240);
    TruncatedTierBoundary(k, q, 50, 1024);
    TruncatedTierBoundary(k, q, 5, 10240);
    FloorTenth(exact, q);
  }

  /** The truncated rate is the floor of the exact one. */
  lemma TruncatedBounds(k: nat, exact: real, q: nat)
    requires 1 <= k && exact * k as real == MAX_SAMPLE_RATE as real && q == MAX_SAMPLE_RATE / k
    ensures q as real <= exact < (q + 1) as real
  {
    assert q * k <= MAX_SAMPLE_RATE < (q + 1) * k;
    assert (q * k) as real == q as real * k as real;
    assert ((q + 1) * k) as real == (q + 1) as real * k as real;
  }

  /**
   * A tier boundary 51200 / m: the exact rate is at most the boundary
   * exactly when the divider is at least m.
   */
  lemma TierBoundary(k: nat, exact: real, m: nat, boundary: nat)
    requires 1 <= k && exact * k as real == MAX_SAMPLE_RATE as real
    requires (m == 50 && boundary == 1024) || (m == 5 && boundary == 10240)
    ensures exact <= boundary as real <==> k >= m
  {
    var B, K := boundary as real, k as real;
    assert (m * boundary) as real == m as real * B;
    if k >= m {
      RealMulAtMost(m as real, K, B);
      RealCancel(exact, B, K);
    } else {
      RealMulAtMost(K, (m - 1) as real, B);
      assert ((m - 1) * boundary) as real == (m - 1) as real * B;
      assert (m - 1) * boundary < MAX_SAMPLE_RATE;
      assert K * B == B * K;
      assert B * K <= (m - 1) as real * B;
      assert ((m - 1) * boundary) as real < MAX_SAMPLE_RATE as real;
      assert exact * K == MAX_SAMPLE_RATE as real;
      assert (m - 1) as real * B < exact * K;
      RealCancelStrict(B, exact, K);
    }
  }

  /** The same boundary for the truncated rate 51200 / k. */
  lemma TruncatedTierBoundary(k: nat, q: nat, m: nat, boundary: nat)
    requires 1 <= k && q == MAX_SAMPLE_RATE / k
    requires (m == 50 && boundary == 1024) || (m == 5 && boundary == 10240)
    ensures q <= boundary <==> k >= m
  {
    if k >= m {
      DivAntitone(MAX_SAMPLE_RATE, m, k);
    } else {
      DivAntitone(MAX_SAMPLE_RATE, k, m - 1);
    }
  }

  lemma RealMulAtMost(a: real, b: real, c: real)
    requires a <= b && c >= 0.0
    ensures a * c <= b * c
  {
  }

  lemma RealCancel(a: real, b: real, c: real)
    requires c > 0.0 && a * c <= b * c
    ensures a <= b
  {
  }

  lemma RealCancelStrict(a: real, b: real, c: real)
    requires c > 0.0 && a * c < b * c
    ensures a < b
  {
  }

  /** x / y is the largest q with q * y <= x. */
  lemma DivAtLeast(x: nat, y: nat, q: nat)
    requires y > 0 && q * y <= x
    ensures q <= x / y
  {
    var d, r := x / y, x % y;
    assert x == d * y + r && r < y;
    if q > d {
      assert (d + 1) * y == d * y + y;
      MulMonotone(d + 1, q, y);
      assert false;
    }
  }

  lemma MulMonotone(a: nat, b: nat, c: nat)
    requires a <= b
    ensures a * c <= b * c
  {
    var k := b - a;
    assert b * c == a * c + k * c;
  }

  lemma DivAntitone(x: nat, a: nat, b: nat)
    requires 0 < a <= b
    ensures x / a >= x / b
  {
    var qb := x / b;
    assert qb * b <= x by {
      assert x == qb * b + x % b;
    }
    MulMonotone(a, b, qb);
    DivAtLeast(x, a, qb);
  }

  /** floor(x / 10) only depends on floor(x). */
  lemma FloorTenth(x: real, q: int)
    requires q >= 0 && q as real <= x < (q + 1) as real
    ensures (x / 10.0).Floor == ((q as real) / 10.0).Floor
  {
    var f := q / 10;
    assert 10 * f <= q < 10 * f + 10;
    assert (10 * f) as real <= x < (10 * f + 10) as real;
    FloorOf(x / 10.0, f);
    FloorOf((q as real) / 10.0, f);
  }

  lemma FloorOf(y: real, f: int)
    requires f as real <= y < (f + 1) as real
    ensures y.Floor == f
  {
  }

  // ---------------------------------------------------------------------
  // Trigger, IEPE and test-signal bytes

  /** The CMD_TRIGGERCONFIG_W byte, (mode << 2) | source. */
  function TriggerByte(source: nat, mode: nat): (b: Byte)
    requires source <= SOURCE_SLAVE && mode <= TRIG_ACTIVE_LOW
    ensures b % 4 == source && b / 4 == mode
  {
    4 * mode + source
  }

  /** iepe_config_write's read-modify-write: only bit `channel` becomes `config`. */
  function IepeWritten(current: bv8, channel: nat, config: nat): (b: bv8)
    requires channel < NUM_CHANNELS && config <= 1
    ensures RegBit(b, channel as bv8) == config as bv8
    ensures forall j: bv8 :: j < 8 && j != channel as bv8 ==> RegBit(b, j) == RegBit(current, j)
  {
    RegSetBit(current, channel as bv8, config as bv8)
  }

  /** iepe_config_read: (b >> channel) & 1. */
  function IepeConfig(b: bv8, channel: nat): (c: nat)
    requires channel < NUM_CHANNELS
    ensures c <= 1 && c == RegBit(b, channel as bv8) as nat
  {
    RegBit(b, channel as bv8) as nat
  }

  /** Reading a channel back after writing its IEPE bit gives the value written, and the other channel is untouched. */
  lemma IepeWriteRead(current: bv8, channel: nat, other: nat, config: nat)
    requires channel < NUM_CHANNELS && other < NUM_CHANNELS && config <= 1
    ensures IepeConfig(IepeWritten(current, channel, config), channel) == config
    ensures other != channel ==> IepeConfig(IepeWritten(current, channel, config), other) == IepeConfig(current, other)
  {
    if other != channel {
      assert other as bv8 != channel as bv8;
    }
  }

  /** test_signals_write: mode, clock and sync as bits 0, 1 and 2, each set for a non-zero argument. */
  function TestSignalsByte(mode: nat, clock: nat, sync: nat): (b: Byte)
    ensures b < 8
  {
    (if mode > 0 then 1 else 0) + (if clock > 0 then 2 else 0) + (if sync > 0 then 4 else 0)
  }

  /** test_signals_read: clock, sync and trigger from bits 0, 1 and 2. */
  function TestSignalsRead(b: Byte): (r: (nat, nat, nat))
    ensures r.0 <= 1 && r.1 <= 1 && r.2 <= 1
  {
    (b % 2, (b / 2) % 2, (b / 4) % 2)
  }

  /** The three bits written come back in the same positions. */
  lemma TestSignalsRoundTrip(mode: nat, clock: nat, sync: nat)
    ensures TestSignalsRead(TestSignalsByte(mode, clock, sync)) ==
      (if mode > 0 then 1 else 0, if clock > 0 then 1 else 0, if sync > 0 then 1 else 0)
  {
  }

  // ---------------------------------------------------------------------
  // Scan start

  /** The per-channel buffer size of a continuous scan before samples_per_channel is considered. */
  function ContinuousTier(rate: real): (n: nat)
    ensures rate <= 1024.0 ==> n == 1000
    ensures 1024.0 < rate <= 10240.0 ==> n == 10000
    ensures rate > 10240.0 ==> n == 100000
  {
    if rate <= 1024.0 then 1000 else if rate <= 10240.0 then 10000 else 100000
  }

  /** info->buffer_size: the scans the buffer holds times the channel count, in uint32_t. */
  function ScanBufferSize(channelCount: nat, samplesPerChannel: U32, rate: real, continuous: bool): (n: U32)
    ensures var scans := if !continuous then samplesPerChannel
                         else if ContinuousTier(rate) < samplesPerChannel then samplesPerChannel
                         else ContinuousTier(rate);
      (scans * channelCount < 0x1_0000_0000 ==> n == scans * channelCount) &&
      (n - scans * channelCount) % 0x1_0000_0000 == 0
  {
    var scans := if !continuous then samplesPerChannel
                 else if ContinuousTier(rate) < samplesPerChannel then samplesPerChannel
                 else ContinuousTier(rate);
    ToU32(scans * channelCount)
  }

  /**
   * info->read_threshold: a tenth of a second of samples, capped at what
   * one data transfer carries, in whole scans and at least one scan.
   */
  function ReadThreshold(rate: real, channelCount: nat): (t: nat)
    requires 0 < channelCount <= NUM_CHANNELS && rate >= 0.0
    ensures 0 < t <= MaxSamplesRead(Mcc172) && t % channelCount == 0
    ensures t == channelCount || t as real <= rate / 10.0
  {
    var raw := (rate / 10.0).Floor;
    var capped := if raw > MaxSamplesRead(Mcc172) then MaxSamplesRead(Mcc172) else raw;
    var t := Normalize(capped, channelCount);
    if t == 0 then channelCount else t
  }

  /** The CMD_AINSCANSTART payload: the scan count little-endian, the mask byte, a zero byte. */
  function StartPayload(scanCount: U32, maskByte: Byte): (p: seq<Byte>)
    ensures |p| == 6 && FromLE32(p[0..4]) == scanCount && p[4] == maskByte && p[5] == 0
  {
    var p := LE32(scanCount) + [maskByte, 0];
    assert p[0..4] == LE32(scanCount);
    p
  }

  /** The clock configuration the start reads once the clock is in sync. */
  datatype ClockReply = ClockReply(result: ResultCode, b0: Byte, b1: Byte)

  /** The per-address state of an open MCC 172 besides its scan. */
  class Board {
    const engine: ScanDevice
    var triggerSource: nat
    var triggerMode: nat

    ghost predicate Valid()
      reads this, engine, engine.scan, if engine.scan == null then {} else {engine.scan.buffer}
    {
      engine.Valid() && triggerSource <= SOURCE_SLAVE && triggerMode <= TRIG_ACTIVE_LOW
    }

    constructor (engine: ScanDevice)
      requires engine.Valid()
      ensures Valid() && this.engine == engine && triggerSource == 0 && triggerMode == 0
    {
      this.engine := engine;
      triggerSource, triggerMode := 0, 0;
    }

    /**
     * a_in_clock_config_write: BAD_PARAMETER for a bad address or a source
     * above SLAVE, BUSY during a scan; otherwise the source and the divider
     * byte are sent and the transfer's result returned.
     */
    method ClockConfigWrite(addressOk: bool, source: int, rate: real, reply: ResultCode)
      returns (result: ResultCode, sent: seq<Byte>)
      requires Valid()
      ensures !addressOk || !(0 <= source <= SOURCE_SLAVE) ==> result == BadParameter && sent == []
      ensures addressOk && 0 <= source <= SOURCE_SLAVE && engine.scan != null ==> result == Busy && sent == []
      ensures addressOk && 0 <= source <= SOURCE_SLAVE && engine.scan == null ==>
        result == reply && sent == [source, ClockDivider(rate)]
    {
      if !addressOk || !(0 <= source <= SOURCE_SLAVE) {
        return BadParameter, [];
      }
      if engine.scan != null {
        return Busy, [];
      }
      sent := [source, ClockDivider(rate)];
      result := reply;
    }

    /**
     * trigger_config: BAD_PARAMETER for a source above 2 or a mode above
     * 3, BUSY during a scan; otherwise the settings are stored and
     * (mode << 2) | source is sent.
     */
    method TriggerConfig(addressOk: bool, source: int, mode: int, reply: ResultCode)
      returns (result: ResultCode, sent: seq<Byte>)
      requires Valid()
      modifies this`triggerSource, this`triggerMode
      ensures Valid()
      ensures !addressOk || !(0 <= source <= SOURCE_SLAVE) || !(0 <= mode <= TRIG_ACTIVE_LOW) ==>
        result == BadParameter && sent == [] && unchanged(this)
      ensures addressOk && 0 <= source <= SOURCE_SLAVE && 0 <= mode <= TRIG_ACTIVE_LOW && engine.scan != null ==>
        result == Busy && sent == [] && unchanged(this)
      ensures addressOk && 0 <= source <= SOURCE_SLAVE && 0 <= mode <= TRIG_ACTIVE_LOW && engine.scan == null ==>
        result == reply && sent == [TriggerByte(source, mode)] &&
        triggerSource == source && triggerMode == mode
    {
      if !addressOk || !(0 <= source <= SOURCE_SLAVE) || !(0 <= mode <= TRIG_ACTIVE_LOW) {
        return BadParameter, [];
      }
      if engine.scan != null {
        return Busy, [];
      }
      sent := [TriggerByte(source, mode)];
      triggerSource, triggerMode := source, mode;
      result := reply;
    }

    /**
     * iepe_config_write: BAD_PARAMETER for a bad address, channel or
     * config, BUSY during a scan; otherwise the current byte is read and,
     * when that succeeds, written back with only bit `channel` changed.
     */
    method IepeConfigWrite(addressOk: bool, channel: int, config: int,
                           readResult: ResultCode, current: bv8, writeResult: ResultCode)
      returns (result: ResultCode, sent: seq<bv8>)
      requires Valid()
      ensures !addressOk || !(0 <= channel < NUM_CHANNELS) || !(0 <= config <= 1) ==> result == BadParameter && sent == []
      ensures addressOk && 0 <= channel < NUM_CHANNELS && 0 <= config <= 1 && engine.scan != null ==>
        result == Busy && sent == []
      ensures addressOk && 0 <= channel < NUM_CHANNELS && 0 <= config <= 1 && engine.scan == null && readResult != Success ==>
        result == readResult && sent == []
      ensures result == Success ==> readResult == Success && writeResult == Success
      ensures sent != [] ==> (readResult == Success && engine.scan == null &&
        sent == [IepeWritten(current, channel, config)] && result == writeResult)
      ensures addressOk && 0 <= channel < NUM_CHANNELS && 0 <= config <= 1 && engine.scan == null && readResult == Success ==>
        sent != []
    {
      if !addressOk || !(0 <= channel < NUM_CHANNELS) || !(0 <= config <= 1) {
        return BadParameter, [];
      }
      if engine.scan != null {
        return Busy, [];
      }
      if readResult != Success {
        return readResult, [];
      }
      sent := [IepeWritten(current, channel, config)];
      result := writeResult;
    }

    /**
     * a_in_scan_start for the MCC 172.  In order: BAD_PARAMETER for a bad
     * address, an empty mask, a mask naming a channel above 1, the external
     * clock option or a finite scan of no samples; BUSY when a scan exists;
     * RESOURCE_UNAVAIL when the thread info cannot be allocated; the clock
     * read's own failure; RESOURCE_UNAVAIL when the buffer or the thread
     * attributes cannot be had; the start command's own failure;
     * RESOURCE_UNAVAIL when the thread cannot be created, after the
     * accepted scan is stopped again with CMD_AINSCANSTOP (stopSent).  The
     * rate is the one the clock configuration reports.
     */
    method ScanStart(addressOk: bool, mask: Byte, samplesPerChannel: U32, options: U32,
                     clock: ClockReply, oracles: Mcc118Start.StartOracles)
      returns (result: ResultCode, sent: seq<Byte>, stopSent: bool)
      requires Valid()
      modifies engine`scan
      ensures Valid()
      ensures !addressOk || mask == 0 || mask >= 4 || Mcc118Start.HasOption(options, 2) ||
              (samplesPerChannel == 0 && !Mcc118Start.HasOption(options, 4)) ==>
        result == BadParameter && sent == []
      ensures var argsOk := addressOk && 0 < mask < 4 && !Mcc118Start.HasOption(options, 2) &&
                            (samplesPerChannel != 0 || Mcc118Start.HasOption(options, 4));
        var size := ScanBufferSize(PopCount(mask, NUM_CHANNELS), samplesPerChannel,
                                   ClockConfigRead(clock.b0, clock.b1).rate, Mcc118Start.HasOption(options, 4));
        result == (if !argsOk then BadParameter
                   else if old(engine.scan) != null then Busy
                   else if !oracles.infoAllocOk then ResourceUnavail
                   else if clock.result != Success then clock.result
                   else if !oracles.bufferAllocOk || size == 0 || !oracles.attrOk then ResourceUnavail
                   else if oracles.startReply != Success then oracles.startReply
                   else if oracles.threadOk then Success else ResourceUnavail) &&
        (sent != [] <==> argsOk && old(engine.scan) == null && oracles.infoAllocOk && clock.result == Success &&
                         oracles.bufferAllocOk && size != 0 && oracles.attrOk) &&
        (sent != [] ==> sent == StartPayload(if Mcc118Start.HasOption(options, 4) then 0 else samplesPerChannel,
                                             mask + (if Mcc118Start.HasOption(options, 3) then 4 else 0)))
      ensures result != Success ==> engine.scan == old(engine.scan)
      ensures result != Success && sent != [] ==> result == oracles.startReply || result == ResourceUnavail
      ensures stopSent <==> sent != [] && oracles.startReply == Success && !oracles.threadOk
      ensures stopSent ==> result == ResourceUnavail
      ensures result == Success ==>
        var nc := PopCount(mask, NUM_CHANNELS);
        var rate := ClockConfigRead(clock.b0, clock.b1).rate;
        var continuous := Mcc118Start.HasOption(options, 4);
        old(engine.scan) == null && clock.result == Success && 0 < nc <= NUM_CHANNELS &&
        fresh(engine.scan) && engine.scan.family == Mcc172 && engine.scan.channelCount == nc &&
        engine.scan.buffer.Length == ScanBufferSize(nc, samplesPerChannel, rate, continuous) &&
        engine.scan.readThreshold == ReadThreshold(rate, nc) &&
        engine.scan.depth == 0 && engine.scan.stream == [] && engine.scan.scanRunning &&
        sent == StartPayload(if continuous then 0 else samplesPerChannel,
                             mask + (if Mcc118Start.HasOption(options, 3) then 4 else 0))
    {
      sent := [];
      if !addressOk || mask == 0 || mask >= 4 || Mcc118Start.HasOption(options, 2) ||
         (samplesPerChannel == 0 && !Mcc118Start.HasOption(options, 4)) {
        return BadParameter, sent, false;
      }
      if engine.scan != null {
        return Busy, sent, false;
      }
      if !oracles.infoAllocOk {
        return ResourceUnavail, sent, false;
      }
      var channelCount := CountChannels(mask, NUM_CHANNELS);
      ChannelCountPositive(mask);
      if clock.result != Success {
        return clock.result, sent, false;
      }
      var rate := ClockConfigRead(clock.b0, clock.b1).rate;
      var size := ScanBufferSize(channelCount, samplesPerChannel, rate, Mcc118Start.HasOption(options, 4));
      if !oracles.bufferAllocOk || size == 0 {
        return ResourceUnavail, sent, false;
      }
      var threshold := ReadThreshold(rate, channelCount);
      if !oracles.attrOk {
        return ResourceUnavail, sent, false;
      }
      var maskByte := mask + (if Mcc118Start.HasOption(options, 3) then 4 else 0);
      var scanCount := if Mcc118Start.HasOption(options, 4) then 0 else samplesPerChannel;
      sent := StartPayload(scanCount, maskByte);
      if oracles.startReply != Success {
        return oracles.startReply, sent, false;
      }
      if !oracles.threadOk {
        // a_in_scan_stop: CMD_AINSCANSTOP, with no payload
        return ResourceUnavail, sent, true;
      }
      var session := new ScanSession(Mcc172, size, channelCount, threshold, seq(channelCount, _ => 0));
      engine.Install(session);
      stopSent := false;
      result := Success;
    }
  }

  /** A mask of 1, 2 or 3 selects one or two channels. */
  lemma ChannelCountPositive(mask: Byte)
    requires 0 < mask < 4
    ensures 0 < PopCount(mask, NUM_CHANNELS) <= NUM_CHANNELS
  {
    assert Pow2(1) == 2;
  }

  /** The mask byte sent: the channel bits, and bit 2 for an external trigger. */
  lemma MaskByteFields(mask: Byte, extTrigger: bool)
    requires 0 < mask < 4
    ensures var b := mask + (if extTrigger then 4 else 0);
      b % 4 == mask && (b / 4 == 1 <==> extTrigger)
  {
  }
}
