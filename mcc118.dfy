// The MCC 118 scan start (lib/mcc118.c): argument checks, the scan buffer
// size, the device read threshold, the pacer period, and the 10-byte
// CMD_AINSCANSTART payload.  Rates are real numbers; the C casts from
// double to an unsigned integer truncate, which is Floor for the
// non-negative values that reach them.

module Mcc118 {
  import opened DaqHats
  import opened ScanEngine
  import opened DeviceTable

  const NUM_CHANNELS: nat := 8
  const CLOCK_TIMEBASE: real := 16000000.0
  const MAX_ADC_RATE: real := 100000.0
  /** CLOCK_TIMEBASE / 0xFFFFFFFF: below this rate the period saturates. */
  const MIN_SCAN_RATE: real := 16000000.0 / 4294967295.0

  /** (options & flag) != 0 for a single-bit flag 2^i. */
  predicate HasOption(options: nat, i: nat)
  {
    Bit(options, i) == 1
  }

  /** The per-channel buffer size of a continuous scan before samples_per_channel is considered. */
  function ContinuousTier(rate: real): (n: nat)
    ensures n == 1000 || n == 10000 || n == 100000
    ensures rate <= 100.0 ==> n == 1000
    ensures 100.0 < rate <= 10000.0 ==> n == 10000
    ensures 10000.0 < rate <= 100000.0 ==> n == 100000
    ensures rate > 100000.0 ==> n == 10000
  {
    if rate <= 100.0 then 1000
    else if rate <= 10000.0 then 10000
    else if rate <= 100000.0 then 100000
    else 10000
  }

  /**
   * The scans the buffer holds: samples_per_channel for a finite scan; for
   * a continuous scan the larger of the tier and samples_per_channel.
   */
  function BufferScans(samplesPerChannel: U32, rate: real, continuous: bool): (s: nat)
    ensures !continuous ==> s == samplesPerChannel
    ensures continuous ==> s >= samplesPerChannel && s >= ContinuousTier(rate)
    ensures continuous ==> s == samplesPerChannel || s == ContinuousTier(rate)
  {
    if !continuous then samplesPerChannel
    else if ContinuousTier(rate) < samplesPerChannel then samplesPerChannel
    else ContinuousTier(rate)
  }

  /** info->buffer_size, a uint32_t: the scans times the channel count, truncated to 32 bits. */
  function ScanBufferSize(channelCount: nat, samplesPerChannel: U32, rate: real, continuous: bool): (n: U32)
    ensures var total := BufferScans(samplesPerChannel, rate, continuous) * channelCount;
      (total < 0x1_0000_0000 ==> n == total) && (n - total) % 0x1_0000_0000 == 0
  {
    ToU32(BufferScans(samplesPerChannel, rate, continuous) * channelCount)
  }

  /**
   * info->read_threshold: the device is asked to signal after about
   * 100 ms of samples, in whole scans, at least one scan and at most 256
   * samples.  An unknown or fast rate uses 256 samples.  A negative
   * rate converts to 0 in the uint16_t conversion, as the boards' ARM
   * processors saturate it, and so gets one scan.
   */
  function ReadThreshold(adcRate: real, channelCount: nat): (t: nat)
    requires 0 < channelCount <= NUM_CHANNELS
    ensures 0 < t <= 256 && t % channelCount == 0
    ensures adcRate == 0.0 || adcRate > 2560.0 ==> 256 - t < channelCount
    ensures 0.0 < adcRate <= 2560.0 ==> t == channelCount || t as real <= adcRate / 10.0
    ensures adcRate < 0.0 ==> t == channelCount
  {
    if adcRate == 0.0 || adcRate > 2560.0 then Normalize(256, channelCount)
    else if adcRate < 0.0 then channelCount
    else
      var t := Normalize((adcRate / 10.0).Floor, channelCount);
      if t == 0 then channelCount else t
  }

  /**
   * The pacer period: the clock divider minus one, rounded to the nearest
   * divider, saturating at 0xFFFFFFFF for slow rates (a zero or negative
   * rate among them).
   */
  function Period(rate: real): (p: U32)
    ensures rate <= MIN_SCAN_RATE ==> p == 0xFFFF_FFFF
    ensures MIN_SCAN_RATE < rate <= MAX_ADC_RATE ==>
      (p + 1) as real - 0.5 <= CLOCK_TIMEBASE / rate < (p + 1) as real + 0.5
  {
    if rate <= MIN_SCAN_RATE then 0xFFFF_FFFF
    else
      var q := (CLOCK_TIMEBASE / rate + 0.5).Floor;
      PeriodRange(rate);
      ToU32(q - 1)
  }

  lemma PeriodRange(rate: real)
    requires rate > MIN_SCAN_RATE
    ensures rate <= MAX_ADC_RATE ==> 1 <= (CLOCK_TIMEBASE / rate + 0.5).Floor <= 0xFFFF_FFFF
  {
    if rate <= MAX_ADC_RATE {
      var x := CLOCK_TIMEBASE / rate;
      assert x * rate == CLOCK_TIMEBASE;
      assert x >= 160.0;
      assert x * rate < 4294967295.0 * rate;
      assert x < 4294967295.0;
    }
  }

  /** The scan_options byte: bit 0 for an external trigger, the trigger mode in bits 1-2. */
  function ScanOptions(options: nat, triggerMode: nat): (b: Byte)
    requires triggerMode <= TRIG_ACTIVE_LOW
    ensures b % 2 == (if HasOption(options, 3) then 1 else 0)
    ensures b / 2 == (if HasOption(options, 3) then triggerMode else 0)
  {
    if HasOption(options, 3) then 1 + 2 * triggerMode else 0
  }

  /** The CMD_AINSCANSTART payload: scan count and period little-endian, the mask, the options byte. */
  function StartPayload(scanCount: U32, period: U32, mask: Byte, scanOptions: Byte): (p: seq<Byte>)
    ensures |p| == 10
    ensures FromLE32(p[0..4]) == scanCount && FromLE32(p[4..8]) == period
    ensures p[8] == mask && p[9] == scanOptions
  {
    var p := LE32(scanCount) + LE32(period) + [mask, scanOptions];
    assert p[0..4] == LE32(scanCount) && p[4..8] == LE32(period);
    p
  }

  /**
   * a_in_scan_actual_rate: the rate the pacer really produces for a
   * requested rate, CLOCK_TIMEBASE over the divider period + 1.  The
   * divider is computed without wrapping (see ActualRateAsWritten).
   */
  function ActualRate(channelCount: int, rate: real): (r: (ResultCode, real))
    ensures r.0 == Success || r.0 == BadParameter
    ensures r.0 == Success <==> 0 < channelCount <= NUM_CHANNELS && channelCount as real * rate <= MAX_ADC_RATE
    ensures 0 < channelCount <= NUM_CHANNELS && r.0 == BadParameter ==> r.1 == 0.0
    ensures r.0 == Success ==> r.1 * (Period(rate) + 1) as real == CLOCK_TIMEBASE
  {
    if !(0 < channelCount <= NUM_CHANNELS) then (BadParameter, 0.0)
    else if channelCount as real * rate > MAX_ADC_RATE then (BadParameter, 0.0)
    else (Success, CLOCK_TIMEBASE / (Period(rate) + 1) as real)
  }

  /**
   * a_in_scan_actual_rate as written: period + 1 is computed in
   * uint32_t, so the saturated period of a slow rate wraps the divisor to
   * zero and the result is an infinite rate, which None stands for.
   */
  function ActualRateAsWritten(channelCount: int, rate: real): (r: (ResultCode, Option<real>))
    ensures r.0 == ActualRate(channelCount, rate).0
    ensures r.0 == Success && rate > MIN_SCAN_RATE ==> r.1 == Some(ActualRate(channelCount, rate).1)
  {
    if !(0 < channelCount <= NUM_CHANNELS) then (BadParameter, Some(0.0))
    else if channelCount as real * rate > MAX_ADC_RATE then (BadParameter, Some(0.0))
    else
      var divisor := ToU32(Period(rate) + 1);
      (Success, if divisor == 0 then None else Some(CLOCK_TIMEBASE / divisor as real))
  }

  /** Every rate up to MIN_SCAN_RATE, 0 and negative rates included, reads back as infinite; the corrected rate is finite. */
  lemma SlowRateReadsInfinite(rate: real)
    requires rate <= MIN_SCAN_RATE
    ensures ActualRateAsWritten(1, rate) == (Success, None)
    ensures ActualRate(1, rate) == (Success, CLOCK_TIMEBASE / 4294967296.0)
  {
  }

  /** The total ADC rate of a scan: the per-channel rate times the channel count. */
  function AdcRate(channelCount: nat, rate: real): real
  {
    channelCount as real * rate
  }

  /** Outcomes of the allocations, the start command and the thread creation in a_in_scan_start. */
  datatype StartOracles = StartOracles(infoAllocOk: bool, bufferAllocOk: bool, attrOk: bool,
                                       startReply: ResultCode, threadOk: bool)

  /** The first argument check of a_in_scan_start. */
  predicate ArgumentsOk(addressOk: bool, mask: Byte, samplesPerChannel: U32, options: U32)
  {
    addressOk && mask != 0 && (samplesPerChannel != 0 || HasOption(options, 4))
  }

  /**
   * The checks of a_in_scan_start (and of the MCC 128's queue start) that
   * follow the argument check, all passed: no scan installed, the thread
   * info allocated, an external clock or a total rate within 100 kS/s,
   * a buffer of non-zero size allocated and the thread attributes had.
   * Exactly then the start command is sent.
   */
  predicate ReachesStart(idle: bool, channelCount: nat, samplesPerChannel: U32, rate: real, options: U32,
                         oracles: StartOracles)
  {
    idle && oracles.infoAllocOk &&
    (HasOption(options, 2) || AdcRate(channelCount, rate) <= MAX_ADC_RATE) &&
    oracles.bufferAllocOk && ScanBufferSize(channelCount, samplesPerChannel, rate, HasOption(options, 4)) != 0 &&
    oracles.attrOk
  }

  /**
   * The result of a scan start once its arguments are accepted, in the
   * source's order: BUSY, RESOURCE_UNAVAIL for the thread info,
   * BAD_PARAMETER for too fast an internal clock, RESOURCE_UNAVAIL for the
   * buffer or the thread attributes, the start command's own failure,
   * RESOURCE_UNAVAIL for the thread, and SUCCESS.
   */
  function StartResult(idle: bool, channelCount: nat, samplesPerChannel: U32, rate: real, options: U32,
                       oracles: StartOracles): (r: ResultCode)
    ensures r == Success <==>
      ReachesStart(idle, channelCount, samplesPerChannel, rate, options, oracles) &&
      oracles.startReply == Success && oracles.threadOk
    ensures !idle ==> r == Busy
    ensures idle && !oracles.infoAllocOk ==> r == ResourceUnavail
    ensures idle && oracles.infoAllocOk && !HasOption(options, 2) && AdcRate(channelCount, rate) > MAX_ADC_RATE ==>
      r == BadParameter
    ensures ReachesStart(idle, channelCount, samplesPerChannel, rate, options, oracles) ==>
      r == if oracles.startReply != Success then oracles.startReply
           else if oracles.threadOk then Success else ResourceUnavail
    ensures !ReachesStart(idle, channelCount, samplesPerChannel, rate, options, oracles) ==>
      r == Busy || r == BadParameter || r == ResourceUnavail
  {
    if !idle then Busy
    else if !oracles.infoAllocOk then ResourceUnavail
    else if !HasOption(options, 2) && AdcRate(channelCount, rate) > MAX_ADC_RATE then BadParameter
    else if !oracles.bufferAllocOk || ScanBufferSize(channelCount, samplesPerChannel, rate, HasOption(options, 4)) == 0 then
      ResourceUnavail
    else if !oracles.attrOk then ResourceUnavail
    else if oracles.startReply != Success then oracles.startReply
    else if !oracles.threadOk then ResourceUnavail
    else Success
  }

  /**
   * a_in_scan_start.  In order: BAD_PARAMETER for a bad address, an empty
   * mask or a finite scan of no samples; BUSY when a scan exists;
   * RESOURCE_UNAVAIL when the thread info cannot be allocated;
   * BAD_PARAMETER for an internal clock faster than 100 kS/s in total;
   * RESOURCE_UNAVAIL when the buffer or the thread attributes cannot be
   * had; the start command's own failure; RESOURCE_UNAVAIL when the
   * thread cannot be created, after the accepted scan is stopped again
   * with CMD_AINSCANSTOP (stopSent).  Only a SUCCESS installs a scan, and
   * the payload is sent only once every earlier step succeeded.
   */
  method ScanStart(dev: ScanDevice, addressOk: bool, mask: Byte, samplesPerChannel: U32, rate: real,
                   options: U32, oracles: StartOracles)
    returns (result: ResultCode, sent: seq<Byte>, stopSent: bool)
    requires dev.Valid() && dev.triggerMode <= TRIG_ACTIVE_LOW
    modifies dev`scan
    ensures dev.Valid()
    ensures result == if !ArgumentsOk(addressOk, mask, samplesPerChannel, options) then BadParameter
                      else StartResult(old(dev.scan) == null, PopCount(mask, NUM_CHANNELS), samplesPerChannel, rate,
                                       options, oracles)
    ensures sent != [] <==>
      ArgumentsOk(addressOk, mask, samplesPerChannel, options) &&
      ReachesStart(old(dev.scan) == null, PopCount(mask, NUM_CHANNELS), samplesPerChannel, rate, options, oracles)
    ensures sent != [] ==>
      sent == StartPayload(if HasOption(options, 4) then 0 else samplesPerChannel,
                           if HasOption(options, 2) then 0 else Period(rate), mask,
                           ScanOptions(options, dev.triggerMode))
    ensures result != Success ==> dev.scan == old(dev.scan)
    ensures result != Success && sent != [] ==> result == oracles.startReply || result == ResourceUnavail
    ensures stopSent <==> sent != [] && oracles.startReply == Success && !oracles.threadOk
    ensures stopSent ==> result == ResourceUnavail
    ensures result == Success ==>
      var nc := PopCount(mask, NUM_CHANNELS);
      var continuous := HasOption(options, 4);
      var extClock := HasOption(options, 2);
      old(dev.scan) == null && ArgumentsOk(addressOk, mask, samplesPerChannel, options) &&
      (extClock || AdcRate(nc, rate) <= MAX_ADC_RATE) &&
      fresh(dev.scan) && fresh(dev.scan.buffer) && dev.scan.family == Mcc118 &&
      dev.scan.channelCount == nc &&
      dev.scan.buffer.Length == ScanBufferSize(nc, samplesPerChannel, rate, continuous) &&
      dev.scan.readThreshold == ReadThreshold(AdcRate(nc, rate), nc) &&
      dev.scan.depth == 0 && dev.scan.stream == [] && dev.scan.scanRunning && dev.scan.threadRunning &&
      sent == StartPayload(if continuous then 0 else samplesPerChannel,
                           if extClock then 0 else Period(rate), mask,
                           ScanOptions(options, dev.triggerMode))
  {
    sent := [];
    if !ArgumentsOk(addressOk, mask, samplesPerChannel, options) {
      return BadParameter, sent, false;
    }
    if dev.scan != null {
      return Busy, sent, false;
    }
    if !oracles.infoAllocOk {
      return ResourceUnavail, sent, false;
    }
    // the channel list
    var channelCount := CountChannels(mask, NUM_CHANNELS);
    SetBitsSpec(mask, NUM_CHANNELS);
    PopCountByte(mask);
    var adcRate := AdcRate(channelCount, rate);
    if !HasOption(options, 2) && adcRate > MAX_ADC_RATE {
      return BadParameter, sent, false;
    }
    var size := ScanBufferSize(channelCount, samplesPerChannel, rate, HasOption(options, 4));
    if !oracles.bufferAllocOk || size == 0 {
      return ResourceUnavail, sent, false;
    }
    var threshold := ReadThreshold(adcRate, channelCount);
    if !oracles.attrOk {
      return ResourceUnavail, sent, false;
    }
    var period := if HasOption(options, 2) then 0 else Period(rate);
    var scanCount := if HasOption(options, 4) then 0 else samplesPerChannel;
    sent := StartPayload(scanCount, period, mask, ScanOptions(options, dev.triggerMode));
    if oracles.startReply != Success {
      return oracles.startReply, sent, false;
    }
    if !oracles.threadOk {
      // a_in_scan_stop: CMD_AINSCANSTOP, with no payload
      return ResourceUnavail, sent, true;
    }
    var session := new ScanSession(Mcc118, size, channelCount, threshold, seq(channelCount, _ => 0));
    dev.Install(session);
    stopSent := false;
    result := Success;
  }

  /**
   * close for a board with a scan engine (the MCC 118, 128 and 172 share
   * it): an address that is not open is BAD_PARAMETER and changes nothing;
   * otherwise any scan is cleaned up and one reference is released.
   */
  method CloseWithScan(table: HandleTable, dev: ScanDevice, address: int) returns (result: ResultCode)
    requires table.Valid() && dev.Valid()
    modifies table, dev`scan
    ensures table.Valid() && dev.Valid()
    ensures table.spiDevices == old(table.spiDevices)
    ensures !old(table.CheckAddr(address)) ==>
      result == BadParameter && table.counts == old(table.counts) && dev.scan == old(dev.scan)
    ensures old(table.CheckAddr(address)) ==>
      result == Success && dev.scan == null &&
      table.counts == old(table.counts)[address := CloseEntry(old(table.counts[address]))]
  {
    if !table.CheckAddr(address) {
      return BadParameter;
    }
    var _ := dev.Cleanup(true);
    result := table.Close(address);
  }
}
