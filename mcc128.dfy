// The MCC 128 (lib/mcc128.c): the per-device input mode, range and
// trigger settings, the single-channel read command, the channel queue a
// scan is started from, the pacer period and divider search, the read
// threshold and the CMD_AINSCANSTART payload.  The ring buffer itself is
// the shared ScanEngine.

module Mcc128 {
  import opened DaqHats
  import opened ScanEngine
  import Mcc118Start = Mcc118

  const NUM_CHANNELS: nat := 8
  const NUM_AI_CHANNELS_SE: nat := 8
  const NUM_AI_CHANNELS_DIFF: nat := 4
  const NUM_RANGES: nat := 4
  const A_IN_MODE_SE: nat := 0
  const A_IN_MODE_DIFF: nat := 1
  const MAX_CODE: nat := 65535
  const CLOCK_TIMEBASE: real := 16000000.0
  const MAX_ADC_RATE: real := 100000.0

  // ---------------------------------------------------------------------
  // Channel queue entries: range in bits 4-5, mode in bit 3, channel in bits 0-2

  /** (range << 4) | (mode << 3) | channel, the form both the queue and CMD_AIN use. */
  function QueueEntry(range: nat, mode: nat, channel: nat): (e: Byte)
    requires range < NUM_RANGES && mode <= A_IN_MODE_DIFF && channel < 8
    ensures e < 0x40
  {
    16 * range + 8 * mode + channel
  }

  /** (e & A_IN_MODE_BIT_MASK) >> A_IN_MODE_BIT_POS */
  function QueueMode(e: Byte): (m: nat)
    ensures m <= A_IN_MODE_DIFF
  {
    (e / 8) % 2
  }

  /** (e & A_IN_RANGE_BIT_MASK) >> A_IN_RANGE_BIT_POS */
  function QueueRange(e: Byte): (r: nat)
    ensures r < NUM_RANGES
  {
    (e / 16) % 4
  }

  /** The low three bits of an entry, its channel. */
  function QueueChannel(e: Byte): (c: nat)
    ensures c < 8
  {
    e % 8
  }

  /** Decoding an entry gives back the mode, range and channel it was built from. */
  lemma QueueEntryRoundTrip(range: nat, mode: nat, channel: nat)
    requires range < NUM_RANGES && mode <= A_IN_MODE_DIFF && channel < 8
    ensures QueueRange(QueueEntry(range, mode, channel)) == range
    ensures QueueMode(QueueEntry(range, mode, channel)) == mode
    ensures QueueChannel(QueueEntry(range, mode, channel)) == channel
  {
    var e := QueueEntry(range, mode, channel);
    DivUnique(e, 16, range, 8 * mode + channel);
    DivUnique(e, 8, 2 * range + mode, channel);
    DivUnique(2 * range + mode, 2, range, mode);
    DivUnique(range, 4, 0, range);
  }

  /** The queue entries for a list of channels, all with the same range and mode. */
  function Entries(range: nat, mode: nat, channels: seq<nat>): (q: seq<Byte>)
    requires range < NUM_RANGES && mode <= A_IN_MODE_DIFF
    requires forall i :: 0 <= i < |channels| ==> channels[i] < 8
    ensures |q| == |channels|
    ensures forall i :: 0 <= i < |q| ==> q[i] == QueueEntry(range, mode, channels[i])
  {
    seq(|channels|, i requires 0 <= i < |channels| => QueueEntry(range, mode, channels[i]))
  }

  /** One more channel adds its entry at the end. */
  lemma EntriesAppend(range: nat, mode: nat, channels: seq<nat>, c: nat)
    requires range < NUM_RANGES && mode <= A_IN_MODE_DIFF && c < 8
    requires forall i :: 0 <= i < |channels| ==> channels[i] < 8
    ensures Entries(range, mode, channels + [c]) == Entries(range, mode, channels) + [QueueEntry(range, mode, c)]
  {
  }

  // ---------------------------------------------------------------------
  // Double to unsigned conversions

  /**
   * A double converted to uint32_t.  C leaves out-of-range conversions
   * undefined; this is the saturating conversion of the ARM processors
   * the boards are used with.
   */
  function CastU32(x: real): (n: U32)
    ensures 0.0 <= x < 4294967296.0 ==> n == x.Floor
  {
    if x < 0.0 then 0 else if x >= 4294967296.0 then 0xFFFF_FFFF else x.Floor
  }

  /**
   * my_period for one divider: (uint32_t)((CLOCK_TIMEBASE / divider) /
   * rate + 0.5) - 1 in uint32_t arithmetic.  A zero rate divides to
   * infinity, which converts to 0xFFFFFFFF; a negative rate converts to
   * 0, so the period wraps to 0xFFFFFFFF as well.
   */
  function DividedPeriod(rate: real, divider: nat): (p: U32)
    requires divider >= 1
  {
    var q := if rate == 0.0 then 0xFFFF_FFFF else CastU32((CLOCK_TIMEBASE / divider as real) / rate + 0.5);
    ToU32(q - 1)
  }

  /**
   * The outcome of the divider search for a rate: the divider code plus
   * one is a power of two up to 256, every smaller power of two gives a
   * period over 16 bits, and the period is the one the divider gives, or
   * the largest period when even the divider 256 is reached.
   */
  predicate SearchedPeriod(rate: real, period: U16, divider: Byte)
  {
    (exists k :: 0 <= k <= 8 && divider + 1 == Pow2(k)) &&
    (forall j :: 0 <= j <= 8 && Pow2(j) < divider + 1 ==> DividedPeriod(rate, Pow2(j)) > 0xFFFF) &&
    (divider < 255 ==> period == DividedPeriod(rate, divider + 1)) &&
    (divider == 255 ==> period == 0xFFFF)
  }

  /** The search has one outcome for each rate, so a payload or a rate stated by SearchedPeriod is determined. */
  lemma SearchedPeriodUnique(rate: real, p1: U16, d1: Byte, p2: U16, d2: Byte)
    requires SearchedPeriod(rate, p1, d1) && SearchedPeriod(rate, p2, d2)
    ensures p1 == p2 && d1 == d2
  {
    if d1 < 255 {
      var k1 :| 0 <= k1 <= 8 && d1 + 1 == Pow2(k1);
      assert DividedPeriod(rate, Pow2(k1)) <= 0xFFFF;
    }
    if d2 < 255 {
      var k2 :| 0 <= k2 <= 8 && d2 + 1 == Pow2(k2);
      assert DividedPeriod(rate, Pow2(k2)) <= 0xFFFF;
    }
  }

  /**
   * _calc_scan_period: the smallest power-of-two clock divider up to 128
   * whose period fits in 16 bits; when none does, the divider 256 and the
   * largest period.  The divider is returned minus one.
   */
  method CalcScanPeriod(rate: real) returns (period: U16, divider: Byte)
    ensures SearchedPeriod(rate, period, divider)
  {
    Pow2Eight();
    var d: nat := 1;
    ghost var k: nat := 0;
    var p := DividedPeriod(rate, d);
    if p > 0xFFFF {
      d, k := d * 2, 1;
    }
    while p > 0xFFFF && d < 256
      invariant 0 <= k <= 8 && d == Pow2(k)
      invariant p <= 0xFFFF ==> d < 256 && p == DividedPeriod(rate, d)
      invariant p > 0xFFFF ==> k >= 1
      invariant forall j :: 0 <= j < k ==> DividedPeriod(rate, Pow2(j)) > 0xFFFF
      decreases 256 - d, if p > 0xFFFF then 1 else 0
    {
      p := DividedPeriod(rate, d);
      if p > 0xFFFF {
        assert k < 8;
        assert DividedPeriod(rate, Pow2(k)) > 0xFFFF;
        d, k := d * 2, k + 1;
      }
    }
    if p > 0xFFFF {
      if k < 8 {
        Pow2Monotone(k, 7);
        assert false;
      }
      p := 0xFFFF;
    }
    period, divider := p, d - 1;
    forall j | 0 <= j <= 8 && Pow2(j) < divider + 1
      ensures DividedPeriod(rate, Pow2(j)) > 0xFFFF
    {
      if j >= k {
        Pow2Monotone(k, j);
        assert false;
      }
    }
  }

  /** The per-channel rate a divider code and period give: CLOCK_TIMEBASE / (divider + 1) / (period + 1). */
  function PacedRate(divider: Byte, period: U16): (r: real)
    ensures 0.0 < r <= CLOCK_TIMEBASE
  {
    var x := CLOCK_TIMEBASE / (divider as real + 1.0);
    assert x * (divider as real + 1.0) == CLOCK_TIMEBASE;
    assert x * (divider as real) >= 0.0;
    assert x > 0.0;
    var y := x / (period as real + 1.0);
    assert y * (period as real + 1.0) == x;
    assert y > 0.0;
    assert y * (period as real) >= 0.0;
    y
  }

  /**
   * a_in_scan_actual_rate: BAD_PARAMETER for a channel count outside
   * 1..8 or a total rate over 100 kS/s (the rate then reads 0); otherwise
   * the rate the divider and period _calc_scan_period chooses give.
   */
  method ActualRate(channelCount: int, rate: real) returns (result: ResultCode, actual: real)
    ensures result == Success || result == BadParameter
    ensures result == Success <==> 0 < channelCount <= NUM_CHANNELS && Mcc118Start.AdcRate(channelCount, rate) <= MAX_ADC_RATE
    ensures 0 < channelCount <= NUM_CHANNELS && result == BadParameter ==> actual == 0.0
    ensures result == Success ==> exists d: Byte, p: U16 :: actual == PacedRate(d, p) && SearchedPeriod(rate, p, d)
  {
    actual := 0.0;
    if !(0 < channelCount <= NUM_CHANNELS) {
      return BadParameter, actual;
    }
    if Mcc118Start.AdcRate(channelCount, rate) > MAX_ADC_RATE {
      return BadParameter, actual;
    }
    var period, divider := CalcScanPeriod(rate);
    actual := PacedRate(divider, period);
    result := Success;
  }

  // ---------------------------------------------------------------------
  // Read threshold and start payload

  /** The largest number of samples one CMD_AINSCANDATA transfer returns. */
  const MAX_SAMPLES_READ: nat := 2045

  /**
   * info->read_threshold: about 100 ms of samples in whole scans, at least
   * one scan, capped at MAX_SAMPLES_READ; 256 samples for an unknown or
   * fast rate.  A negative rate converts to 0, as CastU32 does, and so
   * gets one scan.
   */
  function ReadThreshold(adcRate: real, channelCount: nat): (t: nat)
    requires 0 < channelCount <= NUM_CHANNELS
    ensures 0 < t <= MAX_SAMPLES_READ && t % channelCount == 0
    ensures adcRate == 0.0 || adcRate > 2560.0 ==> 256 - t < channelCount
    ensures 0.0 < adcRate <= 2560.0 ==> t == channelCount || t as real <= adcRate / 10.0
    ensures adcRate < 0.0 ==> t == channelCount
  {
    if adcRate == 0.0 || adcRate > 2560.0 then Normalize(256, channelCount)
    else if adcRate < 0.0 then channelCount
    else
      var raw := (adcRate / 10.0).Floor;
      var capped := if raw > MAX_SAMPLES_READ then MAX_SAMPLES_READ else raw;
      var t := Normalize(capped, channelCount);
      if t == 0 then channelCount else t
  }

  /** The MAX_SAMPLES_READ cap never binds: the threshold is the MCC 118's. */
  lemma ThresholdAsMcc118(adcRate: real, channelCount: nat)
    requires 0 < channelCount <= NUM_CHANNELS
    ensures ReadThreshold(adcRate, channelCount) == Mcc118Start.ReadThreshold(adcRate, channelCount)
  {
  }

  /**
   * The scan_options byte: the queue length minus one in bits 0-2, and
   * for an external trigger bit 3 with the trigger mode in bits 4-5.
   */
  function ScanOptions(queueCount: nat, extTrigger: bool, triggerMode: nat): (b: Byte)
    requires 0 < queueCount <= NUM_CHANNELS && triggerMode <= TRIG_ACTIVE_LOW
    ensures b % 8 == queueCount - 1
    ensures (b / 8) % 2 == (if extTrigger then 1 else 0)
    ensures b / 16 == (if extTrigger then triggerMode else 0)
  {
    ScanOptionsFields(queueCount - 1, extTrigger, triggerMode);
    (queueCount - 1) + (if extTrigger then 8 + 16 * triggerMode else 0)
  }

  lemma ScanOptionsFields(low: nat, extTrigger: bool, triggerMode: nat)
    requires low < 8
    ensures var b := low + (if extTrigger then 8 + 16 * triggerMode else 0);
      b % 8 == low && (b / 8) % 2 == (if extTrigger then 1 else 0) &&
      b / 16 == (if extTrigger then triggerMode else 0)
  {
    if extTrigger {
      var b := low + 8 + 16 * triggerMode;
      DivUnique(b, 8, 1 + 2 * triggerMode, low);
      DivUnique(1 + 2 * triggerMode, 2, triggerMode, 1);
      DivUnique(b, 16, triggerMode, 8 + low);
    }
  }

  function FromLE16(b: seq<Byte>): (x: U16)
    requires |b| == 2
  {
    b[0] as int + 0x100 * (b[1] as int)
  }

  /**
   * The CMD_AINSCANSTART payload: the scan count (4 bytes) and the period
   * (2 bytes) little-endian, the divider, the options byte, then the queue.
   */
  function StartPayload(scanCount: U32, period: U16, divider: Byte, scanOptions: Byte, queue: seq<Byte>): (p: seq<Byte>)
    ensures |p| == 8 + |queue|
    ensures FromLE32(p[0..4]) == scanCount && FromLE16(p[4..6]) == period
    ensures p[6] == divider && p[7] == scanOptions && p[8..] == queue
  {
    var p := LE32(scanCount) + LE16(period) + [divider, scanOptions] + queue;
    assert p[0..4] == LE32(scanCount) && p[4..6] == LE16(period) && p[8..] == queue;
    p
  }

  /**
   * The CMD_AINSCANSTART payload a queue start sends: the scan count
   * (0 for a continuous scan), the period and divider code of the divider
   * search (both 0 with an external clock), the scan options byte and the
   * queue itself.
   */
  predicate StartFrame(sent: seq<Byte>, queue: seq<Byte>, samplesPerChannel: U32, rate: real, options: U32,
                       triggerMode: nat)
  {
    0 < |queue| <= NUM_CHANNELS && triggerMode <= TRIG_ACTIVE_LOW &&
    |sent| == 8 + |queue| && sent[8..] == queue &&
    FromLE32(sent[0..4]) == (if Mcc118Start.HasOption(options, 4) then 0 else samplesPerChannel) &&
    sent[7] == ScanOptions(|queue|, Mcc118Start.HasOption(options, 3), triggerMode) &&
    (Mcc118Start.HasOption(options, 2) ==> FromLE16(sent[4..6]) == 0 && sent[6] == 0) &&
    (!Mcc118Start.HasOption(options, 2) ==> SearchedPeriod(rate, FromLE16(sent[4..6]), sent[6]))
  }

  // ---------------------------------------------------------------------
  // The device

  /** The per-address state of an open MCC 128 besides its scan. */
  class Board {
    const engine: ScanDevice
    var mode: nat
    var range: nat
    /** factory_data slopes and offsets, one per range. */
    var slopes: seq<real>
    var offsets: seq<real>

    ghost predicate Valid()
      reads this, engine, engine.scan, if engine.scan == null then {} else {engine.scan.buffer}
    {
      engine.Valid() && mode <= A_IN_MODE_DIFF && range < NUM_RANGES &&
      |slopes| == NUM_RANGES && |offsets| == NUM_RANGES && engine.triggerMode <= TRIG_ACTIVE_LOW
    }

    constructor (engine: ScanDevice)
      requires engine.Valid() && engine.triggerMode <= TRIG_ACTIVE_LOW
      ensures Valid() && this.engine == engine
      ensures mode == A_IN_MODE_SE && range == 0
      ensures slopes == [1.0, 1.0, 1.0, 1.0] && offsets == [0.0, 0.0, 0.0, 0.0]
    {
      this.engine := engine;
      mode, range := A_IN_MODE_SE, 0;
      slopes, offsets := [1.0, 1.0, 1.0, 1.0], [0.0, 0.0, 0.0, 0.0];
    }

    /** calibration_coefficient_write: BAD_PARAMETER for a bad address or range, BUSY during a scan. */
    method CalibrationWrite(addressOk: bool, range: int, slope: real, offset: real) returns (result: ResultCode)
      requires Valid()
      modifies this`slopes, this`offsets
      ensures Valid()
      ensures result == (if !addressOk || !(0 <= range < NUM_RANGES) then BadParameter
                         else if engine.scan != null then Busy else Success)
      ensures result == Success ==>
        slopes == old(slopes)[range := slope] && offsets == old(offsets)[range := offset]
      ensures result != Success ==> slopes == old(slopes) && offsets == old(offsets)
    {
      if !addressOk || !(0 <= range < NUM_RANGES) {
        return BadParameter;
      }
      if engine.scan != null {
        return Busy;
      }
      slopes := slopes[range := slope];
      offsets := offsets[range := offset];
      return Success;
    }

    /** a_in_mode_write: BAD_PARAMETER for a bad address or a mode above DIFF, BUSY during a scan. */
    method ModeWrite(addressOk: bool, mode: int) returns (result: ResultCode)
      requires Valid()
      modifies this`mode
      ensures Valid()
      ensures result == (if !addressOk || !(0 <= mode <= A_IN_MODE_DIFF) then BadParameter
                         else if engine.scan != null then Busy else Success)
      ensures this.mode == (if result == Success then mode else old(this.mode))
    {
      if !addressOk || !(0 <= mode <= A_IN_MODE_DIFF) {
        return BadParameter;
      }
      if engine.scan != null {
        return Busy;
      }
      this.mode := mode;
      return Success;
    }

    /** a_in_range_write: BAD_PARAMETER for a bad address or a range above BIP_1V, BUSY during a scan. */
    method RangeWrite(addressOk: bool, range: int) returns (result: ResultCode)
      requires Valid()
      modifies this`range
      ensures Valid()
      ensures result == (if !addressOk || !(0 <= range < NUM_RANGES) then BadParameter
                         else if engine.scan != null then Busy else Success)
      ensures this.range == (if result == Success then range else old(this.range))
    {
      if !addressOk || !(0 <= range < NUM_RANGES) {
        return BadParameter;
      }
      if engine.scan != null {
        return Busy;
      }
      this.range := range;
      return Success;
    }

    /** The channels the current mode offers: 8 single-ended, 4 differential. */
    function ChannelLimit(): (n: nat)
      reads this
      ensures n == NUM_AI_CHANNELS_SE || n == NUM_AI_CHANNELS_DIFF
      ensures n == NUM_AI_CHANNELS_DIFF <==> mode != A_IN_MODE_SE
    {
      if mode == A_IN_MODE_SE then NUM_AI_CHANNELS_SE else NUM_AI_CHANNELS_DIFF
    }

    /**
     * a_in_read with OPTS_NOSCALEDATA | OPTS_NOCALIBRATEDATA: the channel
     * must exist in the current mode; the one-byte CMD_AIN payload carries
     * range, mode and channel; the reply (the transfer's result and the
     * code) gives MAX_CODE - code.
     */
    method AInRead(addressOk: bool, channel: int, reply: ResultCode, code: U16)
      returns (result: ResultCode, sent: seq<Byte>, value: int)
      requires Valid()
      ensures !addressOk || !(0 <= channel < ChannelLimit()) ==> result == BadParameter && sent == []
      ensures addressOk && 0 <= channel < ChannelLimit() ==>
        sent == [QueueEntry(range, mode, channel)] && result == reply &&
        QueueChannel(sent[0]) == channel && QueueMode(sent[0]) == mode && QueueRange(sent[0]) == range
      ensures result == Success ==> value == MAX_CODE - code && 0 <= value <= MAX_CODE
    {
      value := 0;
      if !addressOk || !(0 <= channel < ChannelLimit()) {
        return BadParameter, [], value;
      }
      QueueEntryRoundTrip(range, mode, channel);
      sent := [QueueEntry(range, mode, channel)];
      if reply != Success {
        return reply, sent, value;
      }
      value := MAX_CODE - code;
      result := Success;
    }

    /**
     * The queue loop of a_in_scan_start: one entry per set mask bit, in
     * ascending channel order, each with the device's range and mode.
     */
    method BuildQueue(mask: Byte) returns (queue: seq<Byte>)
      requires Valid()
      ensures queue == Entries(range, mode, SetBits(mask, NUM_CHANNELS))
      ensures |queue| == PopCount(mask, NUM_CHANNELS)
    {
      SetBitsSpec(mask, NUM_CHANNELS);
      var r, m := range, mode;
      queue := [];
      var index := 0;
      while index < NUM_CHANNELS
        invariant 0 <= index <= NUM_CHANNELS
        invariant queue == Entries(r, m, SetBits(mask, index))
      {
        if Bit(mask, index) == 1 {
          EntriesAppend(r, m, SetBits(mask, index), index);
          queue := queue + [QueueEntry(r, m, index)];
        }
        index := index + 1;
      }
    }

    /**
     * a_in_scan_start: BAD_PARAMETER for a bad address, an empty mask, a
     * finite scan of no samples, or a mask naming a channel above 3 in
     * differential mode; otherwise the scan is started from the queue of
     * the mask's channels.
     */
    method ScanStart(addressOk: bool, mask: Byte, samplesPerChannel: U32, rate: real, options: U32,
                     oracles: Mcc118Start.StartOracles)
      returns (result: ResultCode, sent: seq<Byte>, stopSent: bool)
      requires Valid()
      modifies engine`scan
      ensures Valid()
      ensures !addressOk || mask == 0 || (samplesPerChannel == 0 && !Mcc118Start.HasOption(options, 4)) ==>
        result == BadParameter && sent == []
      ensures mode == A_IN_MODE_DIFF && mask > 0x0F ==> result == BadParameter && sent == []
      ensures result == if !addressOk || mask == 0 || (samplesPerChannel == 0 && !Mcc118Start.HasOption(options, 4)) then
                          BadParameter
                        else if mode == A_IN_MODE_DIFF && mask > 0x0F then BadParameter
                        else Mcc118Start.StartResult(old(engine.scan) == null, PopCount(mask, NUM_CHANNELS),
                                                     samplesPerChannel, rate, options, oracles)
      ensures sent != [] <==>
        addressOk && mask != 0 && (samplesPerChannel != 0 || Mcc118Start.HasOption(options, 4)) &&
        !(mode == A_IN_MODE_DIFF && mask > 0x0F) &&
        Mcc118Start.ReachesStart(old(engine.scan) == null, PopCount(mask, NUM_CHANNELS), samplesPerChannel, rate,
                                 options, oracles)
      ensures sent != [] ==>
        StartFrame(sent, Entries(range, mode, SetBits(mask, NUM_CHANNELS)), samplesPerChannel, rate, options,
                   engine.triggerMode)
      ensures result != Success ==> engine.scan == old(engine.scan)
      ensures stopSent <==> sent != [] && oracles.startReply == Success && !oracles.threadOk
      ensures stopSent ==> result == ResourceUnavail
      ensures result == Success ==>
        StartFrame(sent, Entries(range, mode, SetBits(mask, NUM_CHANNELS)), samplesPerChannel, rate, options,
                   engine.triggerMode) &&
        fresh(engine.scan) && engine.scan.channelCount == PopCount(mask, NUM_CHANNELS)
    {
      if !addressOk || mask == 0 || (samplesPerChannel == 0 && !Mcc118Start.HasOption(options, 4)) {
        return BadParameter, [], false;
      }
      if mode == A_IN_MODE_DIFF && mask > 0x0F {
        return BadParameter, [], false;
      }
      var queue := BuildQueue(mask);
      PopCountByte(mask);
      result, sent, stopSent := QueueStart(addressOk, queue, samplesPerChannel, rate, options, oracles);
    }

    /**
     * a_in_scan_queue_start.  In order: BAD_PARAMETER for a bad address,
     * an empty or over-long queue or a finite scan of no samples; BUSY
     * when a scan exists; RESOURCE_UNAVAIL when the thread info cannot be
     * allocated; BAD_PARAMETER for an internal clock faster than 100 kS/s
     * in total; RESOURCE_UNAVAIL when the buffer or the thread attributes
     * cannot be had; the start command's own failure; RESOURCE_UNAVAIL
     * when the thread cannot be created.  A new scan keeps the range of
     * every queue entry for the data conversion.
     */
    method QueueStart(addressOk: bool, queue: seq<Byte>, samplesPerChannel: U32, rate: real, options: U32,
                      oracles: Mcc118Start.StartOracles)
      returns (result: ResultCode, sent: seq<Byte>, stopSent: bool)
      requires Valid()
      modifies engine`scan
      ensures Valid()
      ensures !addressOk || !(0 < |queue| <= NUM_CHANNELS) ||
              (samplesPerChannel == 0 && !Mcc118Start.HasOption(options, 4)) ==>
        result == BadParameter && sent == []
      ensures result == if !addressOk || !(0 < |queue| <= NUM_CHANNELS) ||
                           (samplesPerChannel == 0 && !Mcc118Start.HasOption(options, 4)) then BadParameter
                        else Mcc118Start.StartResult(old(engine.scan) == null, |queue|, samplesPerChannel, rate,
                                                     options, oracles)
      ensures sent != [] <==>
        addressOk && 0 < |queue| <= NUM_CHANNELS && (samplesPerChannel != 0 || Mcc118Start.HasOption(options, 4)) &&
        Mcc118Start.ReachesStart(old(engine.scan) == null, |queue|, samplesPerChannel, rate, options, oracles)
      ensures sent != [] ==> StartFrame(sent, queue, samplesPerChannel, rate, options, engine.triggerMode)
      ensures result != Success ==> engine.scan == old(engine.scan)
      ensures result != Success && sent != [] ==> result == oracles.startReply || result == ResourceUnavail
      ensures stopSent <==> sent != [] && oracles.startReply == Success && !oracles.threadOk
      ensures stopSent ==> result == ResourceUnavail
      ensures result == Success ==>
        var nc := |queue|;
        var continuous := Mcc118Start.HasOption(options, 4);
        var extClock := Mcc118Start.HasOption(options, 2);
        old(engine.scan) == null && addressOk && 0 < nc <= NUM_CHANNELS &&
        (extClock || Mcc118Start.AdcRate(nc, rate) <= MAX_ADC_RATE) &&
        fresh(engine.scan) && fresh(engine.scan.buffer) && engine.scan.family == Mcc128 &&
        engine.scan.channelCount == nc &&
        (forall i :: 0 <= i < nc ==> engine.scan.ranges[i] == QueueRange(queue[i])) &&
        engine.scan.buffer.Length == Mcc118Start.ScanBufferSize(nc, samplesPerChannel, rate, continuous) &&
        engine.scan.readThreshold == ReadThreshold(Mcc118Start.AdcRate(nc, rate), nc) &&
        engine.scan.depth == 0 && engine.scan.stream == [] && engine.scan.scanRunning &&
        StartFrame(sent, queue, samplesPerChannel, rate, options, engine.triggerMode)
    {
      sent := [];
      if !addressOk || !(0 < |queue| <= NUM_CHANNELS) ||
         (samplesPerChannel == 0 && !Mcc118Start.HasOption(options, 4)) {
        return BadParameter, sent, false;
      }
      if engine.scan != null {
        return Busy, sent, false;
      }
      if !oracles.infoAllocOk {
        return ResourceUnavail, sent, false;
      }
      var channelCount := |queue|;
      var ranges := seq(channelCount, i requires 0 <= i < channelCount => QueueRange(queue[i]));
      var adcRate := Mcc118Start.AdcRate(channelCount, rate);
      if !Mcc118Start.HasOption(options, 2) && adcRate > MAX_ADC_RATE {
        return BadParameter, sent, false;
      }
      var size := Mcc118Start.ScanBufferSize(channelCount, samplesPerChannel, rate, Mcc118Start.HasOption(options, 4));
      if !oracles.bufferAllocOk || size == 0 {
        return ResourceUnavail, sent, false;
      }
      var threshold := ReadThreshold(adcRate, channelCount);
      if !oracles.attrOk {
        return ResourceUnavail, sent, false;
      }
      result, sent, stopSent := StartScan(queue, ranges, size, threshold, samplesPerChannel, rate, options, oracles);
    }

    /**
     * The end of a_in_scan_queue_start, once the buffer and the thread
     * attributes are had: the CMD_AINSCANSTART payload is sent, and when
     * the board accepts it and the thread is created the scan is installed.
     * When the board accepted it but the thread cannot be created, the scan
     * is stopped again with CMD_AINSCANSTOP (stopSent).
     */
    method StartScan(queue: seq<Byte>, ranges: seq<nat>, size: nat, threshold: nat, samplesPerChannel: U32,
                     rate: real, options: U32, oracles: Mcc118Start.StartOracles)
      returns (result: ResultCode, sent: seq<Byte>, stopSent: bool)
      requires Valid() && engine.scan == null
      requires 0 < |queue| <= NUM_CHANNELS && |ranges| == |queue| && size > 0
      modifies engine`scan
      ensures Valid()
      ensures result != Success ==> engine.scan == old(engine.scan) && (result == oracles.startReply || result == ResourceUnavail)
      ensures result == if oracles.startReply != Success then oracles.startReply
                        else if oracles.threadOk then Success else ResourceUnavail
      ensures StartFrame(sent, queue, samplesPerChannel, rate, options, engine.triggerMode)
      ensures stopSent <==> oracles.startReply == Success && !oracles.threadOk
      ensures stopSent ==> result == ResourceUnavail
      ensures result == Success ==>
        fresh(engine.scan) && fresh(engine.scan.buffer) && engine.scan.family == Mcc128 &&
        engine.scan.channelCount == |queue| && engine.scan.ranges == ranges &&
        engine.scan.buffer.Length == size && engine.scan.readThreshold == threshold &&
        engine.scan.depth == 0 && engine.scan.stream == [] && engine.scan.scanRunning
    {
      var scanOptions := ScanOptions(|queue|, Mcc118Start.HasOption(options, 3), engine.triggerMode);
      var period: U16, divider: Byte := 0, 0;
      if !Mcc118Start.HasOption(options, 2) {
        period, divider := CalcScanPeriod(rate);
      }
      var scanCount := if Mcc118Start.HasOption(options, 4) then 0 else samplesPerChannel;
      sent := StartPayload(scanCount, period, divider, scanOptions, queue);
      if oracles.startReply != Success {
        return oracles.startReply, sent, false;
      }
      if !oracles.threadOk {
        // a_in_scan_stop: CMD_AINSCANSTOP, with no payload
        return ResourceUnavail, sent, true;
      }
      var session := new ScanSession(Mcc128, size, |queue|, threshold, ranges);
      engine.Install(session);
      stopSent := false;
      result := Success;
    }
  }
}
