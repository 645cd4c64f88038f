// The acquisition side of the MCC 134 data logger
// (examples/c/mcc134/data_logger/logger/logger.c).  Unlike the MCC 118 and
// MCC 172 loggers it reads one value per selected channel on each timer
// tick; a pass is logged and shown only when every channel read is good,
// and its display buffer is indexed by the global sample count.

module Mcc134Logger {
  import opened DaqHats
  import opened DataLogger
  import Mcc134

  /** The MCC 134 has four thermocouple channels. */
  const MAX_CHANNELS: nat := 4

  // The logger's own codes for a thermocouple condition (errors.h)
  const OPEN_TC_ERROR: int := -104
  const OVERRANGE_TC_ERROR: int := -105
  const COMMON_MODE_TC_ERROR: int := -106

  /** What mcc134_t_in_read gave for one channel. */
  datatype Reading = Reading(result: ResultCode, value: real)

  /**
   * The code a channel read ends with: the library's failure; on success,
   * the thermocouple condition the value signals; otherwise RESULT_SUCCESS.
   */
  function ReadCode(r: Reading): (code: int)
    ensures code == 0 <==> (r.result == Success && r.value != Mcc134.OPEN_TC_VALUE
      && r.value != Mcc134.OVERRANGE_TC_VALUE && r.value != Mcc134.COMMON_MODE_TC_VALUE)
    ensures r.result != Success ==> code == Code(r.result)
    ensures code == OPEN_TC_ERROR <==> r.result == Success && r.value == Mcc134.OPEN_TC_VALUE
  {
    if r.result != Success then Code(r.result)
    else if r.value == Mcc134.OPEN_TC_VALUE then OPEN_TC_ERROR
    else if r.value == Mcc134.OVERRANGE_TC_VALUE then OVERRANGE_TC_ERROR
    else if r.value == Mcc134.COMMON_MODE_TC_VALUE then COMMON_MODE_TC_ERROR
    else 0
  }

  /** The values read from channels cs, in that order. */
  function Values(readings: seq<Reading>, cs: seq<nat>): (vs: seq<real>)
    requires forall k :: 0 <= k < |cs| ==> cs[k] < |readings|
    ensures |vs| == |cs| && forall k :: 0 <= k < |cs| ==> vs[k] == readings[cs[k]].value
  {
    if |cs| == 0 then [] else Values(readings, cs[..|cs| - 1]) + [readings[cs[|cs| - 1]].value]
  }

  /** The codes of the failed reads among channels cs, in that order. */
  function Errors(readings: seq<Reading>, cs: seq<nat>): (es: seq<int>)
    requires forall k :: 0 <= k < |cs| ==> cs[k] < |readings|
    ensures es == [] <==> forall k :: 0 <= k < |cs| ==> ReadCode(readings[cs[k]]) == 0
    ensures forall e :: e in es ==> e != 0
  {
    if |cs| == 0 then []
    else
      var last := ReadCode(readings[cs[|cs| - 1]]);
      Errors(readings, cs[..|cs| - 1]) + (if last != 0 then [last] else [])
  }

  lemma ValuesSnoc(readings: seq<Reading>, cs: seq<nat>, c: nat)
    requires forall k :: 0 <= k < |cs| ==> cs[k] < |readings|
    requires c < |readings|
    ensures Values(readings, cs + [c]) == Values(readings, cs) + [readings[c].value]
    ensures Errors(readings, cs + [c]) == Errors(readings, cs) + (if ReadCode(readings[c]) != 0 then [ReadCode(readings[c])] else [])
  {
    assert (cs + [c])[..|cs|] == cs;
  }

  /**
   * The channel loop has seen channels 0 .. channel-1 of a mask of width
   * bits: the values of the selected ones stored in order, their failures
   * collected.
   */
  ghost predicate Gathered(mask: nat, width: nat, m: nat, channel: nat, readings: seq<Reading>, stored: seq<real>,
                           idx: nat, errors: seq<int>)
  {
    |readings| == width && |stored| == width && mask < Pow2(width)
    && m == mask / Pow2(channel) && channel <= width
    && idx == |SetBits(mask, channel)|
    && stored[..idx] == Values(readings, SetBits(mask, channel))
    && errors == Errors(readings, SetBits(mask, channel))
  }

  /** One turn of the channel loop looks at a channel of the mask, and m's low bit is that channel's bit. */
  lemma GatherBit(mask: nat, width: nat, m: nat, channel: nat, readings: seq<Reading>, stored: seq<real>,
                  idx: nat, errors: seq<int>)
    requires Gathered(mask, width, m, channel, readings, stored, idx, errors) && m > 0
    ensures channel < width && Bit(mask, channel) == m % 2
  {
    ShiftBound(mask, channel, width);
  }

  /** A turn at a selected channel stores its value next and collects its failure. */
  lemma GatherSet(mask: nat, width: nat, m: nat, channel: nat, readings: seq<Reading>, stored: seq<real>,
                  idx: nat, errors: seq<int>)
    requires Gathered(mask, width, m, channel, readings, stored, idx, errors) && m > 0 && m % 2 == 1
    ensures idx < |stored| && channel < width
    ensures var code := ReadCode(readings[channel]);
      Gathered(mask, width, m / 2, channel + 1, readings, stored[idx := readings[channel].value], idx + 1,
               errors + (if code != 0 then [code] else []))
  {
    ShiftStep(mask, channel);
    GatherBit(mask, width, m, channel, readings, stored, idx, errors);
    var cs := SetBits(mask, channel);
    assert SetBits(mask, channel + 1) == cs + [channel];
    SetBitsSpec(mask, channel + 1);
    SetBitsSpec(mask, width);
    PopCountMonotone(mask, channel + 1, width);
    ValuesSnoc(readings, cs, channel);
    StoreNext(stored, idx, readings[channel].value);
  }

  lemma StoreNext(stored: seq<real>, idx: nat, v: real)
    requires idx < |stored|
    ensures stored[idx := v][..idx + 1] == stored[..idx] + [v]
  {
  }

  /** A turn at a channel outside the mask changes nothing but the position. */
  lemma GatherSkip(mask: nat, width: nat, m: nat, channel: nat, readings: seq<Reading>, stored: seq<real>,
                   idx: nat, errors: seq<int>)
    requires Gathered(mask, width, m, channel, readings, stored, idx, errors) && m > 0 && m % 2 == 0
    ensures Gathered(mask, width, m / 2, channel + 1, readings, stored, idx, errors)
  {
    ShiftStep(mask, channel);
    GatherBit(mask, width, m, channel, readings, stored, idx, errors);
    assert SetBits(mask, channel + 1) == SetBits(mask, channel);
  }

  lemma GatherDone(mask: nat, width: nat, channel: nat, readings: seq<Reading>, stored: seq<real>, idx: nat,
                   errors: seq<int>)
    requires Gathered(mask, width, 0, channel, readings, stored, idx, errors)
    ensures SetBits(mask, channel) == SetBits(mask, width)
  {
    var p := Pow2(channel);
    assert mask == (mask / p) * p + mask % p;
    SetBitsAbove(mask, channel, width);
  }

  /**
   * The channel loop of read_and_display_data: each selected channel is
   * read in ascending order, its value goes into hat_read_buf whatever the
   * outcome, and each failure is reported (and asks for the scan to stop).
   * The pass is good when the failures are none.
   */
  method ReadChannels(mask: Byte, readings: seq<Reading>, buf: array<real>) returns (errors: seq<int>)
    requires |readings| == MAX_CHANNELS && mask < Pow2(MAX_CHANNELS) && buf.Length == MAX_CHANNELS
    modifies buf
    ensures buf[..|SetBits(mask, MAX_CHANNELS)|] == Values(readings, SetBits(mask, MAX_CHANNELS))
    ensures errors == Errors(readings, SetBits(mask, MAX_CHANNELS))
  {
    var m: nat := mask;
    var channel: nat := 0;
    var idx: nat := 0;
    errors := [];
    while m > 0
      invariant Gathered(mask, MAX_CHANNELS, m, channel, readings, buf[..], idx, errors)
      decreases m
    {
      if m % 2 == 1 {
        GatherSet(mask, MAX_CHANNELS, m, channel, readings, buf[..], idx, errors);
        var code := ReadCode(readings[channel]);
        if code != 0 {
          errors := errors + [code];
        }
        buf[idx] := readings[channel].value;
        idx := idx + 1;
      } else {
        GatherSkip(mask, MAX_CHANNELS, m, channel, readings, buf[..], idx, errors);
      }
      channel := channel + 1;
      m := m / 2;
    }
    GatherDone(mask, MAX_CHANNELS, channel, readings, buf[..], idx, errors);
  }

  /**
   * How many seconds apart the channels are read, from the rate box and
   * the unit chosen: seconds, minutes, hours or days; any other choice
   * counts as seconds.
   */
  function IntervalSeconds(value: real, unitIndex: int): (s: real)
  {
    if unitIndex == 1 then value * 60.0
    else if unitIndex == 2 then value * (60.0 * 60.0)
    else if unitIndex == 3 then value * (60.0 * 60.0 * 24.0)
    else value
  }

  /** A day is 24 hours, an hour 60 minutes, a minute 60 seconds; and unknown units are seconds. */
  lemma IntervalUnitsAgree(value: real, unitIndex: int)
    ensures IntervalSeconds(value, 3) == IntervalSeconds(24.0 * value, 2)
    ensures IntervalSeconds(value, 2) == IntervalSeconds(60.0 * value, 1)
    ensures IntervalSeconds(value, 1) == IntervalSeconds(60.0 * value, 0)
    ensures !(0 <= unitIndex <= 3) ==> IntervalSeconds(value, unitIndex) == value
  {
  }

  /** The worker thread's state: g_sample_count and the display buffer of g_num_samples scans. */
  class Logger {
    var sampleCount: nat
    const numSamples: nat
    const numChannels: nat
    const display: array<real>
    ghost var history: seq<real>

    /** The display buffer holds the newest Min(g_sample_count, g_num_samples) passes logged. */
    ghost predicate Valid()
      reads this, display
    {
      display.Length == numSamples * numChannels && numChannels > 0 && numSamples > 0
      && |history| == sampleCount * numChannels
      && Min(sampleCount, numSamples) * numChannels <= |history|
      && display[..Min(sampleCount, numSamples) * numChannels]
         == Newest(history, Min(sampleCount, numSamples) * numChannels)
    }

    /** The start of read_and_display_data: the count reset and an empty buffer of g_num_samples scans. */
    constructor (numSamples: nat, numChannels: nat)
      requires numSamples > 0 && numChannels > 0
      ensures Valid() && fresh(display)
      ensures this.numSamples == numSamples && this.numChannels == numChannels
      ensures sampleCount == 0 && history == []
    {
      this.numSamples := numSamples;
      this.numChannels := numChannels;
      MulNonNeg(numSamples, numChannels);
      display := new real[numSamples * numChannels];
      sampleCount := 0;
      history := [];
    }

    /** The number of values shown for a sample count: Min(count, g_num_samples) scans. */
    function Span(count: nat): nat
    {
      Min(count, numSamples) * numChannels
    }

    /**
     * copy_hat_data_to_display_buffer of the MCC 134 logger: the scans shown
     * are Min(g_sample_count, g_num_samples); a read of read > 0 scans
     * raises g_sample_count by read and leaves the newest scans shown,
     * shifting the buffer down once it is full.  The logger reads one scan
     * at a time; it does not handle more than g_num_samples at once.
     */
    method CopyHatDataToDisplayBuffer(readBuf: array<real>, read: int)
      requires display.Length == numSamples * numChannels && readBuf != display
      requires read <= numSamples && (read > 0 ==> read * numChannels <= readBuf.Length)
      modifies this`sampleCount, display
      ensures sampleCount == old(sampleCount) + Max(read, 0)
      ensures display[..Span(sampleCount)]
        == Newest(old(display[..Span(sampleCount)]) + readBuf[..Max(read, 0) * numChannels], Span(sampleCount))
    {
      var displayed := if sampleCount >= numSamples then numSamples else sampleCount;
      ghost var shown := display[..Span(sampleCount)];
      if read > 0 {
        WindowSizes(displayed, read, numSamples, numChannels);
        var fits := displayed + read <= numSamples;
        ghost var added := readBuf[..read * numChannels];
        var T := CopyScans(readBuf, display, displayed * numChannels, read * numChannels,
                           numSamples * numChannels, fits, false);
        sampleCount := sampleCount + read;
        assert Min(sampleCount, numSamples) == (if fits then displayed + read else numSamples);
        assert Span(sampleCount) == T;
        assert readBuf[..Max(read, 0) * numChannels] == added;
      } else {
        assert Max(read, 0) * numChannels == 0;
        assert shown + readBuf[..Max(read, 0) * numChannels] == shown;
      }
    }

    /** A good pass's row added to the display: one more scan logged. */
    method Append(buf: array<real>)
      requires Valid() && buf != display && numChannels <= buf.Length
      modifies this, display
      ensures Valid()
      ensures sampleCount == old(sampleCount) + 1 && history == old(history) + buf[..numChannels]
    {
      ghost var h := history;
      ghost var count := sampleCount;
      ghost var shownBefore := display[..Span(sampleCount)];
      ghost var row := buf[..numChannels];
      CopyHatDataToDisplayBuffer(buf, 1);
      assert buf[..Max(1, 0) * numChannels] == row;
      history := h + row;
      MulAdd(count, 1, numChannels);
      PassKeepsWindow(h, shownBefore, row, Min(count, numSamples), 1, numSamples, numChannels, count);
    }

    /**
     * One pass of the read loop: the selected channels are read; only when
     * none failed is the row written to the log file (logStatus is what
     * write_log_file returned) and added to the display.  The pass asks for
     * the scan to stop on a failed read or a failed log write.
     */
    method ReadPass(mask: Byte, readings: seq<Reading>, buf: array<real>, logStatus: int)
      returns (errors: seq<int>, logged: bool, stop: bool)
      requires Valid() && buf != display && buf.Length == MAX_CHANNELS && |readings| == MAX_CHANNELS
      requires mask < Pow2(MAX_CHANNELS) && numChannels == PopCount(mask, MAX_CHANNELS)
      modifies this, display, buf
      ensures Valid()
      ensures errors == Errors(readings, SetBits(mask, MAX_CHANNELS))
      ensures logged <==> errors == []
      ensures logged ==> (sampleCount == old(sampleCount) + 1
        && history == old(history) + Values(readings, SetBits(mask, MAX_CHANNELS)))
      ensures !logged ==> sampleCount == old(sampleCount) && history == old(history)
      ensures stop <==> errors != [] || (logged && logStatus < 0)
    {
      SetBitsSpec(mask, MAX_CHANNELS);
      errors := ReadChannels(mask, readings, buf);
      logged := errors == [];
      stop := !logged;
      if logged {
        if logStatus < 0 {
          stop := true;
        }
        Append(buf);
      }
    }
  }
}
