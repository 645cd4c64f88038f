// The MCC 134 thermocouple board (lib/mcc134.c): the per-channel
// thermocouple types, the update interval, the calibration coefficients,
// and the conversion of a thermocouple code to a voltage or a special
// value.  The background thread that fills in the codes is not modelled as
// a thread: the states a reader observes are given as a sequence of
// snapshots.  The NIST polynomials and the thermistor equation are outside
// the model; the temperature they give is a parameter.

module Mcc134 {
  import opened DaqHats
  import opened Mcc134Factory
  import Mcc134Adc

  const TC_TYPE_J: Byte := 0
  const TC_TYPE_N: Byte := 7
  const TC_TYPE_C: Byte := 8
  const TC_DISABLED: Byte := 0xFF

  const OPEN_TC_VALUE: real := -9999.0
  const OVERRANGE_TC_VALUE: real := -8888.0
  const COMMON_MODE_TC_VALUE: real := -7777.0

  const MAX_CODE: int := 8388607
  const MIN_CODE: int := -8388608
  const RANGE_MIN: real := -0.078125
  const RANGE_MAX: real := 0.078125
  const LSB_SIZE: real := (RANGE_MAX - RANGE_MIN) / (MAX_CODE + 1 - MIN_CODE) as real
  const VOLTAGE_MAX: real := RANGE_MAX - LSB_SIZE
  const OPEN_TC_VOLTAGE: real := VOLTAGE_MAX

  /** Volts per code: (REFERENCE_VOLTS / PGA_GAIN) / (MAX_CODE + 1). */
  const VOLTS_PER_CODE: real := (2.5 / 32.0) / (MAX_CODE + 1) as real

  // ---------------------------------------------------------------------
  // Codes

  /** The low 24 bits of a code (code & 0x00FFFFFF). */
  function Low24(code: U32): (u: nat)
    ensures u < 0x100_0000 && (code - u) % 0x100_0000 == 0
  {
    code % 0x100_0000
  }

  /** Bits 26 .. 29 of the code: the ADC's common-mode error flags. */
  predicate CommonModeError(code: U32)
  {
    (code / 0x400_0000) % 16 != 0
  }

  /** The two's-complement value of a 24-bit code. */
  function Signed24(u: nat): (v: int)
    requires u < 0x100_0000
    ensures MIN_CODE <= v <= MAX_CODE
    ensures v < 0 <==> u >= 0x80_0000
    ensures (v - u) % 0x100_0000 == 0
  {
    if u >= 0x80_0000 then u - 0x100_0000 else u
  }

  /** Every code in range is the value of exactly one 24-bit pattern. */
  lemma Signed24RoundTrip(v: int)
    requires MIN_CODE <= v <= MAX_CODE
    ensures var u := if v < 0 then v + 0x100_0000 else v;
      0 <= u < 0x100_0000 && Signed24(u) == v
  {
  }

  predicate NoScale(options: U32) { Bit(options, 0) == 1 }
  predicate NoCalibrate(options: U32) { Bit(options, 1) == 1 }

  /**
   * The value a_in_read reports for a code: an open thermocouple as the
   * railed code or the open voltage, a common-mode error as
   * COMMON_MODE_TC_VALUE when scaling, otherwise the signed code,
   * calibrated unless NOCALIBRATEDATA and scaled to volts unless
   * NOSCALEDATA.
   */
  function Classify(code: U32, options: U32, slope: real, offset: real): real
  {
    if Mcc134Adc.IsOpenCode(code) then
      if NoScale(options) then Mcc134Adc.OPEN_TC_CODE as real else OPEN_TC_VOLTAGE
    else if CommonModeError(code) && !NoScale(options) then COMMON_MODE_TC_VALUE
    else
      var c := Signed24(Low24(code)) as real;
      var v := if NoCalibrate(options) then c else c * slope + offset;
      if NoScale(options) then v else v * VOLTS_PER_CODE
  }

  /** The open voltage is the full-scale code scaled to volts. */
  lemma OpenVoltageIsFullScale()
    ensures OPEN_TC_VOLTAGE == MAX_CODE as real * VOLTS_PER_CODE
    ensures OPEN_TC_VOLTAGE < RANGE_MAX
  {
  }

  /** With both NOSCALEDATA and NOCALIBRATEDATA the value is the signed 24-bit code, open or not. */
  lemma RawCodeReadsBack(code: U32, options: U32, slope: real, offset: real)
    requires NoScale(options) && NoCalibrate(options)
    ensures Classify(code, options, slope, offset) == Signed24(Low24(code)) as real
    ensures MIN_CODE as real <= Classify(code, options, slope, offset) <= MAX_CODE as real
  {
  }

  /**
   * Scaled but uncalibrated, the value is the common-mode value or a
   * voltage inside the input range, the open voltage at its top.
   */
  lemma UncalibratedVoltageRange(code: U32, options: U32, slope: real, offset: real)
    requires !NoScale(options) && NoCalibrate(options)
    ensures var v := Classify(code, options, slope, offset);
      v == COMMON_MODE_TC_VALUE || RANGE_MIN <= v <= VOLTAGE_MAX
    ensures Mcc134Adc.IsOpenCode(code) ==> Classify(code, options, slope, offset) == OPEN_TC_VOLTAGE
  {
    var c := Signed24(Low24(code));
    if !Mcc134Adc.IsOpenCode(code) && !CommonModeError(code) {
      ScaledInRange(c);
    }
  }

  lemma ScaledInRange(c: int)
    requires MIN_CODE <= c <= MAX_CODE
    ensures RANGE_MIN <= c as real * VOLTS_PER_CODE <= VOLTAGE_MAX
  {
    var k := VOLTS_PER_CODE;
    assert k > 0.0;
    assert MIN_CODE as real * k <= c as real * k;
    assert c as real * k <= MAX_CODE as real * k;
  }

  /** The special values lie below the input range, so no voltage is mistaken for one. */
  lemma SpecialValuesOutOfRange()
    ensures OPEN_TC_VALUE < RANGE_MIN && OVERRANGE_TC_VALUE < RANGE_MIN && COMMON_MODE_TC_VALUE < RANGE_MIN
    ensures OPEN_TC_VALUE < OVERRANGE_TC_VALUE < COMMON_MODE_TC_VALUE
  {
  }

  // ---------------------------------------------------------------------
  // Thermocouple types

  /** tc_type_write accepts types J .. N and TC_DISABLED; type C is refused. */
  predicate TypeAccepted(t: Byte)
  {
    t <= TC_TYPE_N || t == TC_DISABLED
  }

  predicate Enabled(t: Byte) { t != TC_DISABLED }

  // ---------------------------------------------------------------------
  // Channel checks

  /** The channel check of a_in_read and t_in_read as written: channel > NUM_TC_CHANNELS. */
  predicate ChannelRejectedAsWritten(channel: Byte)
  {
    channel > NUM_TC_CHANNELS
  }

  /**
   * Channel 4 passes that check although the board has channels 0 .. 3
   * only, so tc_types[4] and tc_codes[4] are read outside their arrays.
   */
  lemma ChannelFourPassesAsWritten()
    ensures !ChannelRejectedAsWritten(4) && 4 >= NUM_TC_CHANNELS
  {
  }

  /** The channel check every other MCC 134 function makes: channel >= NUM_TC_CHANNELS. */
  predicate ChannelRejected(channel: Byte)
  {
    channel >= NUM_TC_CHANNELS
  }

  /** The two checks differ on channel 4 only. */
  lemma ChannelChecksDiffer(channel: Byte)
    ensures ChannelRejected(channel) != ChannelRejectedAsWritten(channel) <==> channel == 4
  {
  }

  // ---------------------------------------------------------------------
  // The readings a reader observes

  /** What a reader sees under the lock: tc_result, tc_valid and the channel's code. */
  datatype Snapshot = Snapshot(result: ResultCode, valid: bool, code: U32)

  /** The wait loop ends on a valid reading or on an error. */
  predicate Settles(s: Snapshot)
  {
    s.valid || s.result != Success
  }

  predicate EventuallySettles(snaps: seq<Snapshot>)
  {
    exists k :: 0 <= k < |snaps| && Settles(snaps[k])
  }

  /** The first snapshot that ends the wait. */
  function FirstSettled(snaps: seq<Snapshot>): (k: nat)
    requires EventuallySettles(snaps)
    ensures k < |snaps| && Settles(snaps[k])
    ensures forall j :: 0 <= j < k ==> !Settles(snaps[j])
  {
    if Settles(snaps[0]) then 0
    else
      assert EventuallySettles(snaps[1..]) by {
        var k :| 0 <= k < |snaps| && Settles(snaps[k]);
        assert snaps[1..][k - 1] == snaps[k];
      }
      1 + FirstSettled(snaps[1..])
  }

  /** The device state of an open MCC 134. */
  class Board {
    var tcTypes: seq<Byte>
    var tcReset: bool
    var tcValid: bool
    var updateInterval: Byte
    var factory: FactoryData

    predicate Valid()
      reads this
    {
      |tcTypes| == NUM_TC_CHANNELS && (forall i :: 0 <= i < |tcTypes| ==> TypeAccepted(tcTypes[i])) &&
      Shaped(factory) && Terminated(factory) && updateInterval >= 1
    }

    /**
     * The state open leaves: every channel disabled, an update interval
     * of one second, no valid reading yet, and the factory data found in
     * the EEPROM.
     */
    constructor (custom: CustomData)
      ensures Valid() && factory == OpenFactoryData(custom)
      ensures tcTypes == seq(NUM_TC_CHANNELS, _ => TC_DISABLED) && updateInterval == 1 && !tcValid && !tcReset
    {
      tcTypes := seq(NUM_TC_CHANNELS, _ => TC_DISABLED);
      tcReset, tcValid := false, false;
      updateInterval := 1;
      factory := OpenFactoryData(custom);
      OpenFactoryTerminated(custom);
    }

    /**
     * tc_type_write: BAD_PARAMETER for a bad address, channel or type;
     * otherwise the type is stored, and when the channel changes between
     * enabled and disabled the thread is told to restart its readings.
     */
    method TcTypeWrite(addressOk: bool, channel: Byte, tcType: Byte) returns (result: ResultCode)
      requires Valid()
      modifies this
      ensures Valid() && updateInterval == old(updateInterval) && factory == old(factory)
      ensures result == Success <==> addressOk && !ChannelRejected(channel) && TypeAccepted(tcType)
      ensures result != Success ==>
        result == BadParameter && tcTypes == old(tcTypes) && tcReset == old(tcReset) && tcValid == old(tcValid)
      ensures result == Success ==> tcTypes == old(tcTypes)[channel := tcType]
      ensures result == Success && Enabled(old(tcTypes)[channel]) != Enabled(tcType) ==> tcReset && !tcValid
      ensures result == Success && Enabled(old(tcTypes)[channel]) == Enabled(tcType) ==>
        tcReset == old(tcReset) && tcValid == old(tcValid)
    {
      if !addressOk || channel >= NUM_TC_CHANNELS || (tcType > TC_TYPE_N && tcType != TC_DISABLED) {
        return BadParameter;
      }
      var current := tcTypes[channel];
      if (current == TC_DISABLED && tcType != TC_DISABLED) || (current != TC_DISABLED && tcType == TC_DISABLED) {
        tcTypes := tcTypes[channel := tcType];
        tcReset, tcValid := true, false;
      } else {
        tcTypes := tcTypes[channel := tcType];
      }
      return Success;
    }

    /** tc_type_read: the stored type, or BAD_PARAMETER for a bad address or channel. */
    method TcTypeRead(addressOk: bool, channel: Byte) returns (result: ResultCode, tcType: Option<Byte>)
      requires Valid()
      ensures tcType.Some? <==> result == Success
      ensures result == Success <==> addressOk && !ChannelRejected(channel)
      ensures result != Success ==> result == BadParameter
      ensures result == Success ==> tcType.value == tcTypes[channel] && TypeAccepted(tcType.value)
    {
      if !addressOk || channel >= NUM_TC_CHANNELS {
        return BadParameter, None;
      }
      return Success, Some(tcTypes[channel]);
    }

    /** update_interval_write: an interval of 0 is stored as 1, any other as given. */
    method UpdateIntervalWrite(addressOk: bool, interval: Byte) returns (result: ResultCode)
      requires Valid()
      modifies this
      ensures Valid() && tcTypes == old(tcTypes) && factory == old(factory)
      ensures tcReset == old(tcReset) && tcValid == old(tcValid)
      ensures !addressOk ==> result == BadParameter && updateInterval == old(updateInterval)
      ensures addressOk ==> result == Success && updateInterval == StoredInterval(interval)
    {
      if !addressOk {
        return BadParameter;
      }
      updateInterval := if interval == 0 then 1 else interval;
      return Success;
    }

    /** update_interval_read: the stored interval, never 0. */
    method UpdateIntervalRead(addressOk: bool) returns (result: ResultCode, interval: Option<Byte>)
      requires Valid()
      ensures interval.Some? <==> result == Success
      ensures !addressOk ==> result == BadParameter
      ensures addressOk ==> result == Success && interval.value == updateInterval && interval.value >= 1
    {
      if !addressOk {
        return BadParameter, None;
      }
      return Success, Some(updateInterval);
    }

    /** calibration_coefficient_write: the channel's slope and offset are replaced. */
    method CoefficientWrite(addressOk: bool, channel: Byte, slope: real, offset: real) returns (result: ResultCode)
      requires Valid()
      modifies this
      ensures Valid() && tcTypes == old(tcTypes) && updateInterval == old(updateInterval)
      ensures tcReset == old(tcReset) && tcValid == old(tcValid)
      ensures factory.serial == old(factory.serial) && factory.calDate == old(factory.calDate)
      ensures result == Success <==> addressOk && !ChannelRejected(channel)
      ensures result != Success ==> result == BadParameter && factory == old(factory)
      ensures result == Success ==>
        factory.slopes == old(factory.slopes)[channel := slope] &&
        factory.offsets == old(factory.offsets)[channel := offset]
    {
      if !addressOk || channel >= NUM_TC_CHANNELS {
        return BadParameter;
      }
      factory := factory.(slopes := factory.slopes[channel := slope], offsets := factory.offsets[channel := offset]);
      return Success;
    }

    /** calibration_coefficient_read: the channel's slope and offset. */
    method CoefficientRead(addressOk: bool, channel: Byte) returns (result: ResultCode, coefficients: Option<(real, real)>)
      requires Valid()
      ensures coefficients.Some? <==> result == Success
      ensures result == Success <==> addressOk && !ChannelRejected(channel)
      ensures result != Success ==> result == BadParameter
      ensures result == Success ==> coefficients.value == (factory.slopes[channel], factory.offsets[channel])
    {
      if !addressOk || channel >= NUM_TC_CHANNELS {
        return BadParameter, None;
      }
      return Success, Some((factory.slopes[channel], factory.offsets[channel]));
    }

    /** serial and calibration_date: the strings held by the factory-data buffers. */
    method SerialAndDate(addressOk: bool) returns (result: ResultCode, serial: Option<string>, date: Option<string>)
      requires Valid()
      ensures serial.Some? == date.Some? == (result == Success)
      ensures !addressOk ==> result == BadParameter
      ensures addressOk ==> result == Success && serial.value == CStr(factory.serial) && date.value == CStr(factory.calDate)
      ensures addressOk ==> |serial.value| < SERIAL_SIZE && |date.value| < CAL_DATE_SIZE
    {
      if !addressOk {
        return BadParameter, None, None;
      }
      TerminatedShort(factory.serial);
      TerminatedShort(factory.calDate);
      return Success, Some(CStr(factory.serial)), Some(CStr(factory.calDate));
    }

    /**
     * a_in_read: BAD_PARAMETER for a bad address or channel or a disabled
     * channel; otherwise wait for the first valid reading or error and
     * report it, the value converted as Classify says.
     */
    method AInRead(addressOk: bool, channel: Byte, options: U32, snaps: seq<Snapshot>)
      returns (result: ResultCode, value: Option<real>)
      requires Valid() && EventuallySettles(snaps)
      ensures value.Some? <==> result == Success
      ensures !addressOk || ChannelRejected(channel) ==> result == BadParameter
      ensures addressOk && !ChannelRejected(channel) && !Enabled(tcTypes[channel]) ==> result == BadParameter
      ensures addressOk && !ChannelRejected(channel) && Enabled(tcTypes[channel]) ==>
        var s := snaps[FirstSettled(snaps)];
        result == s.result &&
        (result == Success ==> value.value == Classify(s.code, options, factory.slopes[channel], factory.offsets[channel]))
    {
      if !addressOk || channel >= NUM_TC_CHANNELS {
        return BadParameter, None;
      }
      if tcTypes[channel] == TC_DISABLED {
        return BadParameter, None;
      }
      var i := 0;
      while !(snaps[i].valid || snaps[i].result != Success)
        invariant 0 <= i <= FirstSettled(snaps)
        decreases FirstSettled(snaps) - i
      {
        i := i + 1;
      }
      var s := snaps[i];
      result, value := s.result, None;
      if s.valid && s.result == Success {
        value := Some(Classify(s.code, options, factory.slopes[channel], factory.offsets[channel]));
      }
    }

    /**
     * t_in_read: the checks of a_in_read, then the scaled and calibrated
     * value: the open voltage becomes OPEN_TC_VALUE, the common-mode value
     * is passed on, and any other voltage needs the cold-junction reading
     * and becomes the temperature the NIST tables give for it.
     */
    method TInRead(addressOk: bool, channel: Byte, snaps: seq<Snapshot>, cjcResult: ResultCode, nistTemperature: real)
      returns (result: ResultCode, value: Option<real>)
      requires Valid() && EventuallySettles(snaps)
      ensures value.Some? <==> result == Success
      ensures !addressOk || ChannelRejected(channel) ==> result == BadParameter
      ensures addressOk && !ChannelRejected(channel) && !Enabled(tcTypes[channel]) ==> result == BadParameter
      ensures addressOk && !ChannelRejected(channel) && Enabled(tcTypes[channel]) ==>
        var s := snaps[FirstSettled(snaps)];
        var v := Classify(s.code, 0, factory.slopes[channel], factory.offsets[channel]);
        (s.result != Success ==> result == s.result) &&
        (s.result == Success && v == OPEN_TC_VOLTAGE ==> result == Success && value.value == OPEN_TC_VALUE) &&
        (s.result == Success && v == COMMON_MODE_TC_VALUE ==> result == Success && value.value == COMMON_MODE_TC_VALUE) &&
        (s.result == Success && v != OPEN_TC_VOLTAGE && v != COMMON_MODE_TC_VALUE ==>
           result == cjcResult && (result == Success ==> value.value == nistTemperature))
    {
      if !addressOk || channel >= NUM_TC_CHANNELS {
        return BadParameter, None;
      }
      if tcTypes[channel] == TC_DISABLED {
        return BadParameter, None;
      }
      var tcValue;
      result, tcValue := AInRead(addressOk, channel, 0, snaps);
      if result != Success {
        return result, None;
      }
      var v := tcValue.value;
      if v == OPEN_TC_VOLTAGE {
        v := OPEN_TC_VALUE;
      } else if v != COMMON_MODE_TC_VALUE {
        if cjcResult != Success {
          return cjcResult, None;
        }
        v := nistTemperature;
      }
      return Success, Some(v);
    }
  }

  /** update_interval_write's rule: the interval stored is never 0, and a non-zero one is kept. */
  function StoredInterval(interval: Byte): (s: Byte)
    ensures s >= 1
    ensures interval != 0 ==> s == interval
  {
    if interval == 0 then 1 else interval
  }
}
