// The MCC 152 library functions (lib/mcc152.c): the analog output
// writes with their clamping and rounding to a DAC code, the reset of the
// I/O expander to its power-on configuration, the DIO reads and writes,
// and the mapping of configuration items to expander registers.
//
// Opening and closing a board is DeviceTable.HandleTable (the open of
// the MCC 152 there initialises the DAC, then the DIO, and selects SPI
// device 1 for an EEPROM version 1 board).  _check_addr is given here as
// the address and whether a device structure is allocated there.

module Mcc152 {
  import opened DaqHats
  import Mcc152Dac
  import opened Mcc152Dio

  const NUM_AO_CHANNELS: nat := 2
  const MAX_CODE: nat := 4095
  const MAX_RANGE: real := 5.0
  const LSB_SIZE: real := MAX_RANGE / 4096.0
  const MAX_VOLTAGE: real := 4095.0 * LSB_SIZE

  /** _check_addr: a valid address with an open device. */
  predicate CheckAddr(address: nat, isOpen: bool)
  {
    address < MAX_NUMBER_HATS && isOpen
  }

  predicate NoScale(options: nat) { Bit(options, 0) == 1 }

  // ---------------------------------------------------------------------
  // Analog output

  /** The largest value accepted: MAX_CODE for codes, MAX_VOLTAGE for volts. */
  function Top(options: nat): (t: real)
    ensures t > 0.0
  {
    if NoScale(options) then MAX_CODE as real else MAX_VOLTAGE
  }

  /** The value after clamping to [0, Top]. */
  function Clamp(options: nat, value: real): (v: real)
    ensures 0.0 <= v <= Top(options)
    ensures 0.0 <= value <= Top(options) ==> v == value
    ensures value < 0.0 ==> v == 0.0
    ensures value > Top(options) ==> v == Top(options)
  {
    if value < 0.0 then 0.0 else if value > Top(options) then Top(options) else value
  }

  /** The clamped value in DAC codes, before rounding. */
  function Codes(options: nat, value: real): (x: real)
    ensures 0.0 <= x <= MAX_CODE as real
  {
    var v := Clamp(options, value);
    if NoScale(options) then v else v / LSB_SIZE
  }

  /**
   * The DAC code sent for a value: the clamped value, in codes, plus one
   * half, truncated as the conversion to uint16_t does.
   */
  function AOutCode(options: nat, value: real): (code: nat)
    ensures code <= MAX_CODE
  {
    (Codes(options, value) + 0.5).Floor
  }

  /** The code is the nearest code to the clamped value. */
  lemma AOutCodeNearest(options: nat, value: real)
    ensures Codes(options, value) - 0.5 < AOutCode(options, value) as real <= Codes(options, value) + 0.5
  {
  }

  /** A larger value never gives a smaller code. */
  lemma AOutCodeMonotone(options: nat, v1: real, v2: real)
    requires v1 <= v2
    ensures AOutCode(options, v1) <= AOutCode(options, v2)
  {
    var x1, x2 := Codes(options, v1), Codes(options, v2);
    assert Clamp(options, v1) <= Clamp(options, v2);
    if !NoScale(options) {
      assert x1 <= x2 by {
        assert x1 * LSB_SIZE == Clamp(options, v1) && x2 * LSB_SIZE == Clamp(options, v2);
      }
    }
  }

  /** Each code's own voltage, or the code itself, converts back to that code. */
  lemma AOutCodeRoundTrip(code: nat)
    requires code <= MAX_CODE
    ensures AOutCode(0, code as real * LSB_SIZE) == code
    ensures AOutCode(1, code as real) == code
  {
    assert Bit(1, 0) == 1 && Bit(0, 0) == 0;
    assert Codes(0, code as real * LSB_SIZE) == code as real;
  }

  /** Values at or beyond the ends of the range give the end codes. */
  lemma AOutCodeEnds(options: nat, value: real)
    ensures value <= 0.0 ==> AOutCode(options, value) == 0
    ensures value >= Top(options) ==> AOutCode(options, value) == MAX_CODE
  {
  }

  /** Clamping twice is clamping once, so a clamped value gives the same code again. */
  lemma ClampIdempotent(options: nat, value: real)
    ensures Clamp(options, Clamp(options, value)) == Clamp(options, value)
    ensures AOutCode(options, Clamp(options, value)) == AOutCode(options, value)
  {
  }

  /**
   * mcc152_a_out_write: the channel is checked, the value converted to a
   * code, and the code written to one channel.
   */
  method AOutWrite(dac: Mcc152Dac.DacPort, address: nat, isOpen: bool, spiDevice: nat, channel: nat,
                   options: nat, value: real, outcome: ResultCode)
    returns (result: ResultCode, sent: seq<seq<Byte>>)
    requires dac.Valid() && Mcc152Dac.SpiOutcome(outcome) && spiDevice < Mcc152Dac.NUM_SPI_DEVICES
    ensures !CheckAddr(address, isOpen) || channel >= NUM_AO_CHANNELS ==> result == BadParameter && sent == []
    ensures CheckAddr(address, isOpen) && channel < NUM_AO_CHANNELS ==>
      result == Mcc152Dac.Transfer(spiDevice, address, dac.spiOpen[spiDevice], outcome) &&
      |sent| == 1 && |sent[0]| == 3 &&
      sent[0][0] == Mcc152Dac.DACCMD_WRITE_LOAD + channel &&
      Mcc152Dac.FrameCode(sent[0]) == AOutCode(options, value)
  {
    if !CheckAddr(address, isOpen) || channel >= NUM_AO_CHANNELS {
      return BadParameter, [];
    }
    var v := value;
    if v < 0.0 {
      v := 0.0;
    } else if v > Top(options) {
      v := Top(options);
    }
    var code := if NoScale(options) then (v + 0.5).Floor else (v / LSB_SIZE + 0.5).Floor;
    result, sent := dac.Write(spiDevice, address, channel, code, outcome);
  }

  /**
   * mcc152_a_out_write_all: both values are clamped in the caller's array,
   * converted to codes, and written with one simultaneous update.
   */
  method AOutWriteAll(dac: Mcc152Dac.DacPort, address: nat, isOpen: bool, spiDevice: nat, options: nat,
                      values: array?<real>, outcome0: ResultCode, outcome1: ResultCode)
    returns (result: ResultCode, sent: seq<seq<Byte>>)
    requires dac.Valid() && Mcc152Dac.SpiOutcome(outcome0) && Mcc152Dac.SpiOutcome(outcome1)
    requires spiDevice < Mcc152Dac.NUM_SPI_DEVICES
    requires values != null ==> values.Length >= NUM_AO_CHANNELS
    modifies values
    ensures !CheckAddr(address, isOpen) || values == null ==> result == BadParameter && sent == []
    ensures values != null && !CheckAddr(address, isOpen) ==> values[..] == old(values[..])
    ensures values != null && CheckAddr(address, isOpen) ==>
      var first := Mcc152Dac.Transfer(spiDevice, address, dac.spiOpen[spiDevice], outcome0);
      values[..] == old(values[..])[0 := Clamp(options, old(values[0]))][1 := Clamp(options, old(values[1]))] &&
      (result == Success <==> first == Success && outcome1 == Success) &&
      |sent| == (if first == Success then 2 else 1) &&
      (forall k :: 0 <= k < |sent| ==> |sent[k]| == 3 && Mcc152Dac.FrameCode(sent[k]) == AOutCode(options, old(values[k])))
  {
    if !CheckAddr(address, isOpen) || values == null {
      return BadParameter, [];
    }
    var codes := new nat[NUM_AO_CHANNELS];
    for i := 0 to NUM_AO_CHANNELS
      invariant forall j :: 0 <= j < i ==> values[j] == Clamp(options, old(values[j])) && codes[j] == AOutCode(options, old(values[j]))
      invariant forall j :: i <= j < values.Length ==> values[j] == old(values[j])
    {
      if values[i] < 0.0 {
        values[i] := 0.0;
      } else if values[i] > Top(options) {
        values[i] := Top(options);
      }
      codes[i] := if NoScale(options) then (values[i] + 0.5).Floor else (values[i] / LSB_SIZE + 0.5).Floor;
    }
    assert values[..] == old(values[..])[0 := Clamp(options, old(values[0]))][1 := Clamp(options, old(values[1]))];
    result, sent := dac.WriteBoth(spiDevice, address, codes[0], codes[1], outcome0, outcome1);
  }

  // ---------------------------------------------------------------------
  // Reset of the I/O expander

  /** The registers mcc152_dio_reset writes, in order, and their values. */
  const RESET_REGS: seq<bv8> := [DIO_REG_INT_MASK, DIO_REG_CONFIG, DIO_REG_PULL_SELECT, DIO_REG_PULL_ENABLE,
                                 DIO_REG_POLARITY, DIO_REG_INPUT_LATCH, DIO_REG_OUTPUT_CONFIG, DIO_REG_OUTPUT_PORT]
  const RESET_VALUES: seq<bv8> := [0xFF, 0xFF, 0xFF, 0xFF, 0x00, 0x00, 0x00, 0xFF]
  const NUM_RESET_WRITES: nat := 8

  /** No read is made for a whole-port write, so its read reply is never used. */
  const NO_READ: I2cReply := I2cReply(false, false, false, 0)

  /** One whole-port write of the reset, skipped once an earlier one has failed. */
  function ResetWrite(o: WriteOutcome, address: nat, k: nat, replies: seq<I2cReply>): (r: WriteOutcome)
    requires WellSized(o.state) && k < NUM_RESET_WRITES && |replies| == NUM_RESET_WRITES
    ensures WellSized(r.state)
    ensures o.result != Success ==> r == o
  {
    if o.result != Success then o
    else
      var w := RegWriteStep(o.state, address, RESET_REGS[k], DIO_CHANNEL_ALL, RESET_VALUES[k], false, NO_READ, 0, replies[k]);
      WriteOutcome(w.result, o.ops + w.ops, w.state)
  }

  /** The writes of the reset from the k-th on, each skipped once one has failed. */
  function ResetFrom(o: WriteOutcome, address: nat, k: nat, replies: seq<I2cReply>): (r: WriteOutcome)
    requires WellSized(o.state) && k <= NUM_RESET_WRITES && |replies| == NUM_RESET_WRITES
    ensures WellSized(r.state)
    decreases NUM_RESET_WRITES - k
  {
    if k == NUM_RESET_WRITES then o else ResetFrom(ResetWrite(o, address, k, replies), address, k + 1, replies)
  }

  /** mcc152_dio_reset: the eight writes in order, stopping at the first failure. */
  function DioResetSpec(s: DioState, address: nat, isOpen: bool, replies: seq<I2cReply>): (o: WriteOutcome)
    requires WellSized(s) && |replies| == NUM_RESET_WRITES
    ensures WellSized(o.state)
    ensures !CheckAddr(address, isOpen) ==> o == WriteOutcome(BadParameter, [], s)
  {
    if !CheckAddr(address, isOpen) then WriteOutcome(BadParameter, [], s)
    else ResetFrom(WriteOutcome(Success, [], s), address, 0, replies)
  }

  /** Once a write has failed, the remaining writes are skipped. */
  lemma {:induction false} ResetFromFailed(o: WriteOutcome, address: nat, k: nat, replies: seq<I2cReply>)
    requires WellSized(o.state) && k <= NUM_RESET_WRITES && |replies| == NUM_RESET_WRITES
    requires o.result != Success
    ensures ResetFrom(o, address, k, replies) == o
    decreases NUM_RESET_WRITES - k
  {
    if k < NUM_RESET_WRITES {
      ResetFromFailed(ResetWrite(o, address, k, replies), address, k + 1, replies);
    }
  }

  /** One write of the reset, as the bus sees it. */
  function ResetOp(k: nat): I2cOp
    requires k < NUM_RESET_WRITES
  {
    WriteReg(RESET_REGS[k], RESET_VALUES[k])
  }

  /** A reset step that succeeds sends its write and leaves the whole-port value in a cached register. */
  lemma ResetWriteSucceeds(o: WriteOutcome, address: nat, k: nat, replies: seq<I2cReply>)
    requires WellSized(o.state) && k < NUM_RESET_WRITES && |replies| == NUM_RESET_WRITES
    requires address < MAX_NUMBER_HATS && o.result == Success && Outcome(replies[k]) == Success
    ensures var r := ResetWrite(o, address, k, replies);
      r.result == Success && r.ops == o.ops + [ResetOp(k)] &&
      (Cached(RESET_REGS[k]) ==> CacheOf(r.state, RESET_REGS[k], address) == RESET_VALUES[k]) &&
      (RESET_REGS[k] != DIO_REG_OUTPUT_PORT ==> r.state.outputPort[address] == o.state.outputPort[address]) &&
      (RESET_REGS[k] != DIO_REG_CONFIG ==> r.state.direction[address] == o.state.direction[address])
  {
  }

  /**
   * When every write succeeds the reset sends the eight writes in order
   * and leaves every channel an input with its output latch high.
   */
  lemma DioResetAllSucceed(s: DioState, address: nat, replies: seq<I2cReply>)
    requires WellSized(s) && address < MAX_NUMBER_HATS && |replies| == NUM_RESET_WRITES
    requires forall k :: 0 <= k < NUM_RESET_WRITES ==> Outcome(replies[k]) == Success
    ensures var o := DioResetSpec(s, address, true, replies);
      o.result == Success &&
      o.ops == [ResetOp(0), ResetOp(1), ResetOp(2), ResetOp(3), ResetOp(4), ResetOp(5), ResetOp(6), ResetOp(7)] &&
      o.state.direction[address] == 0xFF && o.state.outputPort[address] == 0xFF
  {
    var o0 := WriteOutcome(Success, [], s);
    var o4 := ResetHead(o0, address, replies);
    ResetTail(o4, address, replies);
  }

  /** The first four writes of a reset that succeeds, the second of which makes every channel an input. */
  lemma ResetHead(o: WriteOutcome, address: nat, replies: seq<I2cReply>) returns (o4: WriteOutcome)
    requires WellSized(o.state) && address < MAX_NUMBER_HATS && |replies| == NUM_RESET_WRITES
    requires o.result == Success && forall k :: 0 <= k < 4 ==> Outcome(replies[k]) == Success
    ensures WellSized(o4.state)
    ensures o4.result == Success && o4.ops == o.ops + [ResetOp(0), ResetOp(1), ResetOp(2), ResetOp(3)] &&
      o4.state.direction[address] == 0xFF &&
      ResetFrom(o, address, 0, replies) == ResetFrom(o4, address, 4, replies)
  {
    ResetWriteSucceeds(o, address, 0, replies);
    var o1 := ResetWrite(o, address, 0, replies);
    ResetWriteSucceeds(o1, address, 1, replies);
    var o2 := ResetWrite(o1, address, 1, replies);
    ResetWriteSucceeds(o2, address, 2, replies);
    var o3 := ResetWrite(o2, address, 2, replies);
    ResetWriteSucceeds(o3, address, 3, replies);
    o4 := ResetWrite(o3, address, 3, replies);
  }

  /** The last four writes of a reset that succeeds, the last of which drives every output latch high. */
  lemma ResetTail(o: WriteOutcome, address: nat, replies: seq<I2cReply>)
    requires WellSized(o.state) && address < MAX_NUMBER_HATS && |replies| == NUM_RESET_WRITES
    requires o.result == Success && forall k :: 4 <= k < NUM_RESET_WRITES ==> Outcome(replies[k]) == Success
    ensures var r := ResetFrom(o, address, 4, replies);
      r.result == Success && r.ops == o.ops + [ResetOp(4), ResetOp(5), ResetOp(6), ResetOp(7)] &&
      r.state.direction[address] == o.state.direction[address] && r.state.outputPort[address] == 0xFF
  {
    ResetWriteSucceeds(o, address, 4, replies);
    var o5 := ResetWrite(o, address, 4, replies);
    ResetWriteSucceeds(o5, address, 5, replies);
    var o6 := ResetWrite(o5, address, 5, replies);
    ResetWriteSucceeds(o6, address, 6, replies);
    var o7 := ResetWrite(o6, address, 6, replies);
    ResetWriteSucceeds(o7, address, 7, replies);
    var o8 := ResetWrite(o7, address, 7, replies);
    assert ResetFrom(o, address, 4, replies) == o8 by {
      assert ResetFrom(o8, address, 8, replies) == o8;
      assert ResetFrom(o7, address, 7, replies) == o8;
      assert ResetFrom(o6, address, 6, replies) == o8;
      assert ResetFrom(o5, address, 5, replies) == o8;
    }
  }

  /** A failure of the first write ends the reset with that write's result and nothing else sent. */
  lemma DioResetStopsAtFirstWrite(s: DioState, address: nat, replies: seq<I2cReply>)
    requires WellSized(s) && address < MAX_NUMBER_HATS && |replies| == NUM_RESET_WRITES
    requires Outcome(replies[0]) != Success
    ensures var o := DioResetSpec(s, address, true, replies);
      o.result == Outcome(replies[0]) && |o.ops| <= 1 &&
      o.state.outputPort == s.outputPort && o.state.direction == s.direction
  {
    var o1 := ResetWrite(WriteOutcome(Success, [], s), address, 0, replies);
    ResetFromFailed(o1, address, 1, replies);
  }

  /** One write of the reset: _mcc152_dio_reg_write of a whole register, without the cache. */
  method ResetRegister(bus: DioBus, address: nat, k: nat, replies: seq<I2cReply>, ghost before: WriteOutcome, opsBefore: seq<I2cOp>)
    returns (result: ResultCode, ops: seq<I2cOp>)
    requires bus.Valid() && k < NUM_RESET_WRITES && |replies| == NUM_RESET_WRITES
    requires before == WriteOutcome(Success, opsBefore, bus.State())
    modifies bus
    ensures bus.Valid()
    ensures WriteOutcome(result, ops, bus.State()) == ResetWrite(before, address, k, replies)
  {
    var more;
    result, more := bus.RegWrite(address, RESET_REGS[k], DIO_CHANNEL_ALL, RESET_VALUES[k], false, NO_READ, 0, replies[k]);
    ops := opsBefore + more;
  }

  /** mcc152_dio_reset on the library's state. */
  method DioReset(bus: DioBus, address: nat, isOpen: bool, replies: seq<I2cReply>)
    returns (result: ResultCode, ops: seq<I2cOp>)
    requires bus.Valid() && |replies| == NUM_RESET_WRITES
    modifies bus
    ensures bus.Valid()
    ensures WriteOutcome(result, ops, bus.State()) == DioResetSpec(old(bus.State()), address, isOpen, replies)
  {
    if !CheckAddr(address, isOpen) {
      return BadParameter, [];
    }
    ghost var o := WriteOutcome(Success, [], bus.State());
    ops := [];
    result, ops := ResetRegister(bus, address, 0, replies, o, ops);
    o := ResetWrite(o, address, 0, replies);
    if result != Success {
      ResetFromFailed(o, address, 1, replies);
      return;
    }
    result, ops := ResetRegister(bus, address, 1, replies, o, ops);
    o := ResetWrite(o, address, 1, replies);
    if result != Success {
      ResetFromFailed(o, address, 2, replies);
      return;
    }
    result, ops := ResetRegister(bus, address, 2, replies, o, ops);
    o := ResetWrite(o, address, 2, replies);
    if result != Success {
      ResetFromFailed(o, address, 3, replies);
      return;
    }
    result, ops := ResetRegister(bus, address, 3, replies, o, ops);
    o := ResetWrite(o, address, 3, replies);
    if result != Success {
      ResetFromFailed(o, address, 4, replies);
      return;
    }
    result, ops := ResetRegister(bus, address, 4, replies, o, ops);
    o := ResetWrite(o, address, 4, replies);
    if result != Success {
      ResetFromFailed(o, address, 5, replies);
      return;
    }
    result, ops := ResetRegister(bus, address, 5, replies, o, ops);
    o := ResetWrite(o, address, 5, replies);
    if result != Success {
      ResetFromFailed(o, address, 6, replies);
      return;
    }
    result, ops := ResetRegister(bus, address, 6, replies, o, ops);
    o := ResetWrite(o, address, 6, replies);
    if result != Success {
      ResetFromFailed(o, address, 7, replies);
      return;
    }
    result, ops := ResetRegister(bus, address, 7, replies, o, ops);
    o := ResetWrite(o, address, 7, replies);
  }

  // ---------------------------------------------------------------------
  // Digital I/O reads and writes

  /** The data registers read by the input, output and interrupt status functions. */
  predicate DataRegister(reg: bv8)
  {
    reg == DIO_REG_INPUT_PORT || reg == DIO_REG_OUTPUT_PORT || reg == DIO_REG_INT_STATUS
  }

  /**
   * mcc152_dio_input_read_bit, mcc152_dio_output_read_bit and
   * mcc152_dio_int_status_read_bit: one channel of a data register.
   */
  method DioReadBit(bus: DioBus, address: nat, isOpen: bool, reg: bv8, channel: bv8, reply: I2cReply)
    returns (result: ResultCode, value: Option<bv8>, ops: seq<I2cOp>)
    requires bus.Valid() && DataRegister(reg)
    modifies bus
    ensures bus.Valid()
    ensures !CheckAddr(address, isOpen) || channel >= NUM_DIO_CHANNELS ==>
      result == BadParameter && value == None && ops == [] && bus.State() == old(bus.State())
    ensures CheckAddr(address, isOpen) && channel < NUM_DIO_CHANNELS ==>
      ReadOutcome(result, value, ops, bus.State()) == RegReadStep(old(bus.State()), address, reg, channel, reply)
  {
    if !CheckAddr(address, isOpen) || channel >= NUM_DIO_CHANNELS {
      return BadParameter, None, [];
    }
    result, value, ops := bus.RegRead(address, reg, channel, reply);
  }

  /**
   * mcc152_dio_input_read_port, mcc152_dio_output_read_port and
   * mcc152_dio_int_status_read_port: a whole data register.
   */
  method DioReadPort(bus: DioBus, address: nat, isOpen: bool, reg: bv8, reply: I2cReply)
    returns (result: ResultCode, value: Option<bv8>, ops: seq<I2cOp>)
    requires bus.Valid() && DataRegister(reg)
    modifies bus
    ensures bus.Valid()
    ensures !CheckAddr(address, isOpen) ==>
      result == BadParameter && value == None && ops == [] && bus.State() == old(bus.State())
    ensures CheckAddr(address, isOpen) ==>
      ReadOutcome(result, value, ops, bus.State()) == RegReadStep(old(bus.State()), address, reg, DIO_CHANNEL_ALL, reply)
  {
    if !CheckAddr(address, isOpen) {
      return BadParameter, None, [];
    }
    result, value, ops := bus.RegRead(address, reg, DIO_CHANNEL_ALL, reply);
  }

  /** mcc152_dio_output_write_bit: one channel of the output latch, over the cached latch. */
  method DioOutputWriteBit(bus: DioBus, address: nat, isOpen: bool, channel: bv8, value: bv8,
                           readReply: I2cReply, stale: bv8, writeReply: I2cReply)
    returns (result: ResultCode, ops: seq<I2cOp>)
    requires bus.Valid()
    modifies bus
    ensures bus.Valid()
    ensures !CheckAddr(address, isOpen) || channel >= NUM_DIO_CHANNELS ==>
      result == BadParameter && ops == [] && bus.State() == old(bus.State())
    ensures CheckAddr(address, isOpen) && channel < NUM_DIO_CHANNELS ==>
      WriteOutcome(result, ops, bus.State()) ==
        RegWriteStep(old(bus.State()), address, DIO_REG_OUTPUT_PORT, channel, value, true, readReply, stale, writeReply)
  {
    if !CheckAddr(address, isOpen) || channel >= NUM_DIO_CHANNELS {
      return BadParameter, [];
    }
    result, ops := bus.RegWrite(address, DIO_REG_OUTPUT_PORT, channel, value, true, readReply, stale, writeReply);
  }

  /** mcc152_dio_output_write_port: the whole output latch. */
  method DioOutputWritePort(bus: DioBus, address: nat, isOpen: bool, value: bv8, writeReply: I2cReply)
    returns (result: ResultCode, ops: seq<I2cOp>)
    requires bus.Valid()
    modifies bus
    ensures bus.Valid()
    ensures !CheckAddr(address, isOpen) ==> result == BadParameter && ops == [] && bus.State() == old(bus.State())
    ensures CheckAddr(address, isOpen) ==>
      WriteOutcome(result, ops, bus.State()) ==
        RegWriteStep(old(bus.State()), address, DIO_REG_OUTPUT_PORT, DIO_CHANNEL_ALL, value, true, NO_READ, 0, writeReply)
  {
    if !CheckAddr(address, isOpen) {
      return BadParameter, [];
    }
    result, ops := bus.RegWrite(address, DIO_REG_OUTPUT_PORT, DIO_CHANNEL_ALL, value, true, NO_READ, 0, writeReply);
  }

  // ---------------------------------------------------------------------
  // Configuration items

  const DIO_DIRECTION: bv8 := 0
  const DIO_PULL_CONFIG: bv8 := 1
  const DIO_PULL_ENABLE: bv8 := 2
  const DIO_INPUT_INVERT: bv8 := 3
  const DIO_INPUT_LATCH: bv8 := 4
  const DIO_OUTPUT_TYPE: bv8 := 5
  const DIO_INT_MASK: bv8 := 6

  /** The expander register behind each configuration item; None for an unknown item. */
  function ItemRegister(item: bv8): (r: Option<bv8>)
    ensures r.Some? <==> item <= DIO_INT_MASK
  {
    if item == DIO_DIRECTION then Some(DIO_REG_CONFIG)
    else if item == DIO_PULL_CONFIG then Some(DIO_REG_PULL_SELECT)
    else if item == DIO_PULL_ENABLE then Some(DIO_REG_PULL_ENABLE)
    else if item == DIO_INPUT_INVERT then Some(DIO_REG_POLARITY)
    else if item == DIO_INPUT_LATCH then Some(DIO_REG_INPUT_LATCH)
    else if item == DIO_OUTPUT_TYPE then Some(DIO_REG_OUTPUT_CONFIG)
    else if item == DIO_INT_MASK then Some(DIO_REG_INT_MASK)
    else None
  }

  /** Different items configure different registers, and no item reaches a data register. */
  lemma ItemRegistersDistinct(a: bv8, b: bv8)
    requires ItemRegister(a).Some? && ItemRegister(b).Some?
    ensures ItemRegister(a) == ItemRegister(b) ==> a == b
    ensures !DataRegister(ItemRegister(a).value)
    ensures Cached(ItemRegister(a).value) <==> a == DIO_DIRECTION
  {
  }

  /** The arguments a configuration write hands to _mcc152_dio_reg_write. */
  datatype WritePlan = WritePlan(reg: bv8, channel: bv8, value: bv8, useCache: bool)

  /** The output type is one setting for the whole port, 0 (push-pull) or 1 (open-drain). */
  function OutputTypeValue(value: bv8): (v: bv8)
    ensures v <= 1 && (v == 0 <==> value == 0)
  {
    if value > 1 then 1 else value
  }

  /**
   * mcc152_dio_config_write_bit: the item's register and the channel; the
   * output type writes the whole port, and only the direction uses the
   * cache.  The channel itself is not checked here.
   */
  function ConfigWriteBitPlan(channel: bv8, item: bv8, value: bv8): (p: Option<WritePlan>)
    ensures p.Some? <==> ItemRegister(item).Some?
    ensures p.Some? ==> p.value.reg == ItemRegister(item).value
    ensures p.Some? ==> (p.value.useCache <==> item == DIO_DIRECTION)
    ensures p.Some? && item == DIO_OUTPUT_TYPE ==> p.value.channel == DIO_CHANNEL_ALL && p.value.value == OutputTypeValue(value)
    ensures p.Some? && item != DIO_OUTPUT_TYPE ==> p.value.channel == channel && p.value.value == value
  {
    match ItemRegister(item)
    case None => None
    case Some(reg) =>
      if item == DIO_OUTPUT_TYPE then Some(WritePlan(reg, DIO_CHANNEL_ALL, OutputTypeValue(value), false))
      else Some(WritePlan(reg, channel, value, item == DIO_DIRECTION))
  }

  /** mcc152_dio_config_write_port: the whole register, through the cache. */
  function ConfigWritePortPlan(item: bv8, value: bv8): (p: Option<WritePlan>)
    ensures p.Some? <==> ItemRegister(item).Some?
    ensures p.Some? ==> p.value == WritePlan(ItemRegister(item).value, DIO_CHANNEL_ALL,
                                             if item == DIO_OUTPUT_TYPE then OutputTypeValue(value) else value, true)
  {
    match ItemRegister(item)
    case None => None
    case Some(reg) => Some(WritePlan(reg, DIO_CHANNEL_ALL, if item == DIO_OUTPUT_TYPE then OutputTypeValue(value) else value, true))
  }

  /** A one-channel configuration write changes just that channel's bit, and the output type all of them. */
  lemma ConfigWriteBitChangesOneChannel(s: DioState, address: nat, channel: bv8, item: bv8, value: bv8,
                                        r1: I2cReply, stale: bv8, r2: I2cReply)
    requires WellSized(s) && address < MAX_NUMBER_HATS && channel < NUM_DIO_CHANNELS
    requires ConfigWriteBitPlan(channel, item, value).Some?
    requires Outcome(r1) == Success && Outcome(r2) == Success
    ensures var p := ConfigWriteBitPlan(channel, item, value).value;
      var o := RegWriteStep(s, address, p.reg, p.channel, p.value, p.useCache, r1, stale, r2);
      var base := if item == DIO_DIRECTION then s.direction[address] else r1.data;
      o.result == Success &&
      (item == DIO_OUTPUT_TYPE ==> o.ops == [WriteReg(DIO_REG_OUTPUT_CONFIG, OutputTypeValue(value))]) &&
      (item != DIO_OUTPUT_TYPE ==>
         var w := o.ops[|o.ops| - 1].value;
         o.ops[|o.ops| - 1] == WriteReg(p.reg, w) &&
         RegBit(w, channel) == value & 1 &&
         forall j: bv8 :: j < 8 && j != channel ==> RegBit(w, j) == RegBit(base, j))
  {
  }

  method ConfigWriteBit(bus: DioBus, address: nat, isOpen: bool, channel: bv8, item: bv8, value: bv8,
                        readReply: I2cReply, stale: bv8, writeReply: I2cReply)
    returns (result: ResultCode, ops: seq<I2cOp>)
    requires bus.Valid()
    modifies bus
    ensures bus.Valid()
    ensures !CheckAddr(address, isOpen) || ConfigWriteBitPlan(channel, item, value).None? ==>
      result == BadParameter && ops == [] && bus.State() == old(bus.State())
    ensures CheckAddr(address, isOpen) && ConfigWriteBitPlan(channel, item, value).Some? ==>
      var p := ConfigWriteBitPlan(channel, item, value).value;
      WriteOutcome(result, ops, bus.State()) ==
        RegWriteStep(old(bus.State()), address, p.reg, p.channel, p.value, p.useCache, readReply, stale, writeReply)
  {
    if !CheckAddr(address, isOpen) {
      return BadParameter, [];
    }
    var reg: bv8, chan, v, cache := 0, channel, value, false;
    if item == DIO_DIRECTION {
      reg, cache := DIO_REG_CONFIG, true;
    } else if item == DIO_PULL_CONFIG {
      reg := DIO_REG_PULL_SELECT;
    } else if item == DIO_PULL_ENABLE {
      reg := DIO_REG_PULL_ENABLE;
    } else if item == DIO_INPUT_INVERT {
      reg := DIO_REG_POLARITY;
    } else if item == DIO_INPUT_LATCH {
      reg := DIO_REG_INPUT_LATCH;
    } else if item == DIO_OUTPUT_TYPE {
      reg, chan := DIO_REG_OUTPUT_CONFIG, DIO_CHANNEL_ALL;
      if v > 1 {
        v := 1;
      }
    } else if item == DIO_INT_MASK {
      reg := DIO_REG_INT_MASK;
    } else {
      return BadParameter, [];
    }
    result, ops := bus.RegWrite(address, reg, chan, v, cache, readReply, stale, writeReply);
  }

  method ConfigWritePort(bus: DioBus, address: nat, isOpen: bool, item: bv8, value: bv8, writeReply: I2cReply)
    returns (result: ResultCode, ops: seq<I2cOp>)
    requires bus.Valid()
    modifies bus
    ensures bus.Valid()
    ensures !CheckAddr(address, isOpen) || ConfigWritePortPlan(item, value).None? ==>
      result == BadParameter && ops == [] && bus.State() == old(bus.State())
    ensures CheckAddr(address, isOpen) && ConfigWritePortPlan(item, value).Some? ==>
      var p := ConfigWritePortPlan(item, value).value;
      WriteOutcome(result, ops, bus.State()) ==
        RegWriteStep(old(bus.State()), address, p.reg, p.channel, p.value, p.useCache, NO_READ, 0, writeReply)
  {
    if !CheckAddr(address, isOpen) {
      return BadParameter, [];
    }
    var reg := ItemRegister(item);
    if reg.None? {
      return BadParameter, [];
    }
    var v := if item == DIO_OUTPUT_TYPE && value > 1 then 1 else value;
    result, ops := bus.RegWrite(address, reg.value, DIO_CHANNEL_ALL, v, true, NO_READ, 0, writeReply);
  }

  /** mcc152_dio_config_read_bit: the item's register at the channel, the whole port for the output type. */
  method ConfigReadBit(bus: DioBus, address: nat, isOpen: bool, channel: bv8, item: bv8, reply: I2cReply)
    returns (result: ResultCode, value: Option<bv8>, ops: seq<I2cOp>)
    requires bus.Valid()
    modifies bus
    ensures bus.Valid()
    ensures !CheckAddr(address, isOpen) || ItemRegister(item).None? ==>
      result == BadParameter && value == None && ops == [] && bus.State() == old(bus.State())
    ensures CheckAddr(address, isOpen) && ItemRegister(item).Some? ==>
      ReadOutcome(result, value, ops, bus.State()) ==
        RegReadStep(old(bus.State()), address, ItemRegister(item).value,
                    if item == DIO_OUTPUT_TYPE then DIO_CHANNEL_ALL else channel, reply)
  {
    if !CheckAddr(address, isOpen) {
      return BadParameter, None, [];
    }
    var reg := ItemRegister(item);
    if reg.None? {
      return BadParameter, None, [];
    }
    var chan := if item == DIO_OUTPUT_TYPE then DIO_CHANNEL_ALL else channel;
    result, value, ops := bus.RegRead(address, reg.value, chan, reply);
  }

  /** The value mcc152_dio_config_read_port reports for a register byte. */
  function ConfigPortValue(item: bv8, regValue: bv8): (v: bv8)
    ensures item == DIO_OUTPUT_TYPE ==> (v == 0 <==> regValue == 0) && (v == 0 || v == 0xFF)
    ensures item != DIO_OUTPUT_TYPE ==> v == regValue
  {
    if item == DIO_OUTPUT_TYPE then (if regValue == 0 then 0 else 0xFF) else regValue
  }

  /**
   * A port configuration written and read back gives the value written, or
   * for the output type 0x00 or 0xFF by whether the value written was 0.
   */
  lemma ConfigPortRoundTrip(item: bv8, value: bv8)
    requires ConfigWritePortPlan(item, value).Some?
    ensures ConfigPortValue(item, ConfigWritePortPlan(item, value).value.value) ==
      if item == DIO_OUTPUT_TYPE then (if value == 0 then 0 else 0xFF) else value
  {
  }

  /** mcc152_dio_config_read_port: the whole register, the output type as 0x00 or 0xFF. */
  method ConfigReadPort(bus: DioBus, address: nat, isOpen: bool, item: bv8, reply: I2cReply)
    returns (result: ResultCode, value: Option<bv8>, ops: seq<I2cOp>)
    requires bus.Valid()
    modifies bus
    ensures bus.Valid()
    ensures !CheckAddr(address, isOpen) || ItemRegister(item).None? ==>
      result == BadParameter && value == None && ops == [] && bus.State() == old(bus.State())
    ensures CheckAddr(address, isOpen) && ItemRegister(item).Some? ==>
      var o := RegReadStep(old(bus.State()), address, ItemRegister(item).value, DIO_CHANNEL_ALL, reply);
      result == o.result && ops == o.ops && bus.State() == o.state &&
      value == (if o.result == Success then Some(ConfigPortValue(item, o.value.value)) else None)
  {
    if !CheckAddr(address, isOpen) {
      return BadParameter, None, [];
    }
    var reg := ItemRegister(item);
    if reg.None? {
      return BadParameter, None, [];
    }
    var myval;
    result, myval, ops := bus.RegRead(address, reg.value, DIO_CHANNEL_ALL, reply);
    if result != Success {
      return result, None, ops;
    }
    value := Some(ConfigPortValue(item, myval.value));
  }
}
