// The MCC 152 Python class (daqhats/mcc152.py) where it does more than
// hand its arguments to libdaqhats: the clamping of analog output values,
// the argument checks of the digital I/O writes, the read-modify-write of
// the dictionary writes, the tuples of the register reads, and the
// mapping of library results to exceptions.
//
// Register bytes are bv8: every value the class combines with masks comes
// from a c_ubyte and every mask is 1 << channel with channel below 8, so
// Python's unbounded & , | and ~ give the same byte as the 8-bit operators.

module PyMcc152 {
  import opened DaqHats
  import opened PyHats
  import PyScan
  import Mcc152

  const AOUT_NUM_CHANNELS: nat := 2
  const DIO_NUM_CHANNELS: nat := 8

  const MIN_CODE: real := 0.0
  const MAX_CODE: real := 4095.0
  const MAX_RANGE: real := 5.0
  const MIN_VOLTAGE: real := 0.0
  const MAX_VOLTAGE: real := MAX_RANGE * (MAX_CODE / (MAX_CODE + 1.0))

  // ---------------------------------------------------------------------
  // Results

  /**
   * The mapping after a native call: any failure is "Incorrect response.",
   * except that the configuration methods report BAD_PARAMETER (an unknown
   * item) as ValueError.
   */
  function Answer<T>(address: nat, result: int, checksItem: bool, value: T): (r: Outcome<T>)
    ensures r.Returned? <==> result == Code(Success)
    ensures r.Returned? ==> r.value == value
    ensures checksItem && result == Code(BadParameter) ==> r == Raised(ValueError)
    ensures result != Code(Success) && !(checksItem && result == Code(BadParameter)) ==>
      r == Raised(HatError(address, INCORRECT_RESPONSE))
  {
    if checksItem && result == Code(BadParameter) then Raised(ValueError)
    else if result != Code(Success) then Raised(HatError(address, INCORRECT_RESPONSE))
    else Returned(value)
  }

  // ---------------------------------------------------------------------
  // a_out_write, a_out_write_all

  /** options & OptionFlags.NOSCALEDATA != 0 */
  predicate NoScale(options: nat)
  {
    And(options, OPTS_NOSCALEDATA) != 0
  }

  /** The Python test for NOSCALEDATA is the library's test of bit 0. */
  lemma NoScaleIsBit0(options: nat)
    ensures NoScale(options) <==> Mcc152.NoScale(options)
  {
    PyScan.MaskedBit(options, 0);
  }

  /**
   * The clamp of a_out_write: to [0, 4095] for codes and to
   * [0, 5 * 4095 / 4096] for volts. It is the clamp the library applies
   * again to the value it receives.
   */
  function ClampValue(options: nat, value: real): (v: real)
    ensures v == Mcc152.Clamp(options, value)
    ensures NoScale(options) ==> MIN_CODE <= v <= MAX_CODE
    ensures !NoScale(options) ==> MIN_VOLTAGE <= v <= MAX_VOLTAGE
  {
    NoScaleIsBit0(options);
    if NoScale(options) then
      if value < MIN_CODE then MIN_CODE else if value > MAX_CODE then MAX_CODE else value
    else
      if value < MIN_VOLTAGE then MIN_VOLTAGE else if value > MAX_VOLTAGE then MAX_VOLTAGE else value
  }

  /**
   * a_out_write(channel, value, options): ValueError for a channel outside
   * 0 to 1 before anything is sent; otherwise the channel and the clamped
   * value go to the library (with the options, which the model leaves out
   * of what is sent), and any failure is "Incorrect response.".
   */
  function AOutWrite(h: Hat, channel: int, value: real, options: nat, result: int): (c: Call<(int, real), ()>)
    ensures Guarded(h).Some? ==> c == Call(None, Raised(Guarded(h).value))
    ensures c.sent.Some? <==> h.initialized && 0 <= channel < AOUT_NUM_CHANNELS
    ensures h.initialized && !(0 <= channel < AOUT_NUM_CHANNELS) ==> c.outcome == Raised(ValueError)
    ensures c.sent.Some? ==> c.sent.value == (channel, Mcc152.Clamp(options, value))
    ensures c.sent.Some? ==> c.outcome == Answer(h.address, result, false, ())
  {
    if Guarded(h).Some? then Call(None, Raised(Guarded(h).value))
    else if !(0 <= channel < AOUT_NUM_CHANNELS) then Call(None, Raised(ValueError))
    else Call(Some((channel, ClampValue(options, value))), Answer(h.address, result, false, ()))
  }

  /** The value a_out_write sends gives the DAC the same code as the value it was given. */
  lemma AOutWriteSameCode(h: Hat, channel: int, value: real, options: nat, result: int)
    requires AOutWrite(h, channel, value, options, result).sent.Some?
    ensures Mcc152.AOutCode(options, AOutWrite(h, channel, value, options, result).sent.value.1) ==
            Mcc152.AOutCode(options, value)
  {
    Mcc152.ClampIdempotent(options, value);
  }

  /**
   * a_out_write_all(values, options): ValueError for fewer than two values
   * before anything is sent. The loop over the values clamps each into a
   * local variable that is then dropped, so the list handed to the library
   * is the list the caller passed. BAD_PARAMETER is ValueError and any
   * other failure "Incorrect response.".
   */
  method AOutWriteAll(h: Hat, values: seq<real>, options: nat, result: int) returns (c: Call<seq<real>, ()>)
    ensures Guarded(h).Some? ==> c == Call(None, Raised(Guarded(h).value))
    ensures c.sent.Some? <==> h.initialized && |values| >= AOUT_NUM_CHANNELS
    ensures h.initialized && |values| < AOUT_NUM_CHANNELS ==> c.outcome == Raised(ValueError)
    ensures c.sent.Some? ==> c.sent.value == values
    ensures c.sent.Some? ==> c.outcome == Answer(h.address, result, true, ())
  {
    if Guarded(h).Some? {
      return Call(None, Raised(Guarded(h).value));
    }
    if |values| < AOUT_NUM_CHANNELS {
      return Call(None, Raised(ValueError));
    }
    var dataArray := values;
    for k := 0 to |values|
      invariant dataArray == values
    {
      var value := ClampValue(options, values[k]);
    }
    c := Call(Some(dataArray), Answer(h.address, result, true, ()));
  }

  /**
   * The clamping loop of a_out_write_all does no harm: the library clamps
   * the first two values itself, so each channel gets the code it would
   * have had from the clamped value.
   */
  lemma AOutWriteAllSameCodes(values: seq<real>, options: nat, k: nat)
    requires |values| >= AOUT_NUM_CHANNELS && k < AOUT_NUM_CHANNELS
    ensures Mcc152.AOutCode(options, values[k]) == Mcc152.AOutCode(options, ClampValue(options, values[k]))
  {
    Mcc152.ClampIdempotent(options, values[k]);
  }

  // ---------------------------------------------------------------------
  // dio_reset, the single-bit and port writes

  /** dio_reset: any failure is "Incorrect response.". */
  function DioReset(h: Hat, result: int): (r: Outcome<()>)
    ensures Guarded(h).Some? ==> r == Raised(Guarded(h).value)
    ensures r.Returned? <==> h.initialized && result == Code(Success)
    ensures h.initialized && result != Code(Success) ==> r == Raised(HatError(h.address, INCORRECT_RESPONSE))
  {
    if Guarded(h).Some? then Raised(Guarded(h).value) else Answer(h.address, result, false, ())
  }

  /** A channel in 0 to 7 and a value of 0 or 1: the checks of the bit writes. */
  predicate BitArgs(channel: int, value: int)
  {
    0 <= channel < DIO_NUM_CHANNELS && (value == 0 || value == 1)
  }

  /**
   * dio_output_write_bit(channel, value): ValueError for a channel outside
   * 0 to 7 or a value other than 0 and 1, before anything is sent.
   */
  function OutputWriteBit(h: Hat, channel: int, value: int, result: int): (c: Call<(Byte, Byte), ()>)
    ensures Guarded(h).Some? ==> c == Call(None, Raised(Guarded(h).value))
    ensures c.sent.Some? <==> h.initialized && BitArgs(channel, value)
    ensures h.initialized && !BitArgs(channel, value) ==> c.outcome == Raised(ValueError)
    ensures c.sent.Some? ==> c.sent.value == (channel, value) && c.outcome == Answer(h.address, result, false, ())
  {
    if Guarded(h).Some? then Call(None, Raised(Guarded(h).value))
    else if !BitArgs(channel, value) then Call(None, Raised(ValueError))
    else Call(Some((channel, value)), Answer(h.address, result, false, ()))
  }

  /** dio_output_write_port(values): ValueError unless values is in 0 to 255, before anything is sent. */
  function OutputWritePort(h: Hat, values: int, result: int): (c: Call<Byte, ()>)
    ensures Guarded(h).Some? ==> c == Call(None, Raised(Guarded(h).value))
    ensures c.sent.Some? <==> h.initialized && 0 <= values < 256
    ensures h.initialized && !(0 <= values < 256) ==> c.outcome == Raised(ValueError)
    ensures c.sent.Some? ==> c.sent.value == values && c.outcome == Answer(h.address, result, false, ())
  {
    if Guarded(h).Some? then Call(None, Raised(Guarded(h).value))
    else if !(0 <= values < 256) then Call(None, Raised(ValueError))
    else Call(Some(values), Answer(h.address, result, false, ()))
  }

  /**
   * dio_config_write_bit(channel, item, value): the checks of
   * OutputWriteBit; the item goes to the library as a c_ubyte, and the
   * library's BAD_PARAMETER (an unknown item) is ValueError.
   */
  function ConfigWriteBit(h: Hat, channel: int, item: int, value: int, result: int): (c: Call<(Byte, Byte, Byte), ()>)
    ensures Guarded(h).Some? ==> c == Call(None, Raised(Guarded(h).value))
    ensures c.sent.Some? <==> h.initialized && BitArgs(channel, value)
    ensures h.initialized && !BitArgs(channel, value) ==> c.outcome == Raised(ValueError)
    ensures c.sent.Some? ==> c.sent.value == (channel, item % 256, value) && c.outcome == Answer(h.address, result, true, ())
  {
    if Guarded(h).Some? then Call(None, Raised(Guarded(h).value))
    else if !BitArgs(channel, value) then Call(None, Raised(ValueError))
    else Call(Some((channel, ToByte(item), value)), Answer(h.address, result, true, ()))
  }

  /** dio_config_write_port(item, value): ValueError unless value is in 0 to 255; BAD_PARAMETER is ValueError. */
  function ConfigWritePort(h: Hat, item: int, value: int, result: int): (c: Call<(Byte, Byte), ()>)
    ensures Guarded(h).Some? ==> c == Call(None, Raised(Guarded(h).value))
    ensures c.sent.Some? <==> h.initialized && 0 <= value < 256
    ensures h.initialized && !(0 <= value < 256) ==> c.outcome == Raised(ValueError)
    ensures c.sent.Some? ==> c.sent.value == (item % 256, value) && c.outcome == Answer(h.address, result, true, ())
  {
    if Guarded(h).Some? then Call(None, Raised(Guarded(h).value))
    else if !(0 <= value < 256) then Call(None, Raised(ValueError))
    else Call(Some((ToByte(item), value)), Answer(h.address, result, true, ()))
  }

  // ---------------------------------------------------------------------
  // dio_output_write_dict, dio_config_write_dict

  /** One channel:value pair of the dictionary, in the order items() yields them. */
  type Item = (int, int)

  predicate ValidItem(item: Item)
  {
    BitArgs(item.0, item.1)
  }

  predicate AllValid(items: seq<Item>)
  {
    forall k :: 0 <= k < |items| ==> ValidItem(items[k])
  }

  /** A channel number or bit value below 8 as a register operand (the c_ubyte the library receives). */
  function Bv(x: int): (b: bv8)
    requires 0 <= x < 8
    ensures b < 8 && b as int == x
    ensures x <= 1 ==> b <= 1
    ensures (x == 0 <==> b == 0) && (x == 1 <==> b == 1)
  {
    if x == 0 then 0 else if x == 1 then 1 else if x == 2 then 2 else if x == 3 then 3
    else if x == 4 then 4 else if x == 5 then 5 else if x == 6 then 6 else 7
  }

  /** The register after the pairs in order, each setting its channel's bit to its value. */
  function Merged(base: bv8, items: seq<Item>): (r: bv8)
    requires AllValid(items)
    decreases |items|
  {
    if |items| == 0 then base
    else
      var last := items[|items| - 1];
      RegSetBit(Merged(base, items[..|items| - 1]), Bv(last.0), Bv(last.1))
  }

  /** The value of the last pair for a channel, if any pair names it. */
  function LastValue(items: seq<Item>, channel: int): (v: Option<int>)
    ensures v.None? <==> forall k :: 0 <= k < |items| ==> items[k].0 != channel
    ensures v.Some? ==> exists k :: 0 <= k < |items| && items[k] == (channel, v.value)
    ensures v.Some? && AllValid(items) ==> v.value == 0 || v.value == 1
    decreases |items|
  {
    if |items| == 0 then None
    else if items[|items| - 1].0 == channel then Some(items[|items| - 1].1)
    else
      var v := LastValue(items[..|items| - 1], channel);
      assert forall k :: 0 <= k < |items| - 1 ==> items[..|items| - 1][k] == items[k];
      v
  }

  /**
   * What the merge gives: the register to write, or None when a pair is
   * invalid or there are none, in which case the method raises ValueError
   * and writes nothing.
   */
  function DictMerge(base: bv8, items: seq<Item>): (r: Option<bv8>)
    ensures r.None? <==> |items| == 0 || !AllValid(items)
  {
    if |items| == 0 || !AllValid(items) then None else Some(Merged(base, items))
  }

  /** Each bit of the merged register is the last value given for its channel, or the old bit. */
  lemma {:induction false} MergedBits(base: bv8, items: seq<Item>, channel: int)
    requires AllValid(items) && 0 <= channel < DIO_NUM_CHANNELS
    ensures RegBit(Merged(base, items), Bv(channel)) ==
      match LastValue(items, channel)
      case Some(v) => Bv(v)
      case None => RegBit(base, Bv(channel))
    decreases |items|
  {
    if |items| > 0 {
      var init := items[..|items| - 1];
      assert AllValid(init) by {
        assert forall k :: 0 <= k < |init| ==> init[k] == items[k];
      }
      MergedBits(base, init, channel);
    }
  }

  /** A write of one pair changes the register as a single-bit write of it does. */
  lemma SingleItemMerge(base: bv8, channel: int, value: int)
    requires BitArgs(channel, value)
    ensures DictMerge(base, [(channel, value)]) == Some(RegSetBit(base, Bv(channel), Bv(value)))
  {
    var items := [(channel, value)];
    assert ValidItem(items[0]);
    assert AllValid(items[..|items| - 1]) && Merged(base, items[..|items| - 1]) == base by {
      assert items[..|items| - 1] == [];
    }
    assert Merged(base, items) == RegSetBit(base, Bv(channel), Bv(value));
  }

  /** One step of the loop: x & ~mask for 0, x | mask for 1, as RegSetBit. */
  lemma MaskStep(x: bv8, channel: bv8, value: bv8)
    requires channel < 8 && value <= 1
    ensures value == 0 ==> x & !(1 << channel) == RegSetBit(x, channel, value)
    ensures value == 1 ==> x | (1 << channel) == RegSetBit(x, channel, value)
  {
  }

  /** The loop body for a pair that passed the checks: mask = 1 << channel, recorded in channels, and the bit cleared or set. */
  method ApplyItem(values: bv8, channels: bv8, channel: int, value: int) returns (newValues: bv8, newChannels: bv8)
    requires BitArgs(channel, value)
    ensures newValues == RegSetBit(values, Bv(channel), Bv(value))
    ensures newChannels != 0
  {
    var mask: bv8 := 1 << Bv(channel);
    newChannels := channels | mask;
    MaskStep(values, Bv(channel), Bv(value));
    if value == 0 {
      newValues := values & !mask;
    } else {
      newValues := values | mask;
    }
  }

  /**
   * The loop of the dictionary writes: each pair is checked, its bit cleared
   * or set in values and recorded in channels; a pair that fails the check
   * stops the loop with ValueError, and so does an empty dictionary.
   */
  method MergeItems(orig: bv8, items: seq<Item>) returns (r: Option<bv8>)
    ensures r == DictMerge(orig, items)
  {
    var values := orig;
    var channels: bv8 := 0;
    var k := 0;
    while k < |items|
      invariant 0 <= k <= |items|
      invariant AllValid(items[..k])
      invariant values == Merged(orig, items[..k])
      invariant channels == 0 <==> k == 0
    {
      var (channel, value) := items[k];
      if !(0 <= channel < DIO_NUM_CHANNELS) || !(value == 0 || value == 1) {
        assert !ValidItem(items[k]);
        return None;
      }
      values, channels := ApplyItem(values, channels, channel, value);
      MergeStep(orig, items, k);
      k := k + 1;
    }
    assert items[..k] == items;
    if channels == 0 {
      return None;
    }
    return Some(values);
  }

  /** The merge of one more pair is one more RegSetBit. */
  lemma MergeStep(orig: bv8, items: seq<Item>, k: nat)
    requires k < |items| && AllValid(items[..k]) && ValidItem(items[k])
    ensures AllValid(items[..k + 1])
    ensures Merged(orig, items[..k + 1]) == RegSetBit(Merged(orig, items[..k]), Bv(items[k].0), Bv(items[k].1))
  {
    var next := items[..k + 1];
    assert next[..k] == items[..k];
    assert forall i :: 0 <= i < k ==> next[i] == items[..k][i];
  }

  /**
   * dio_output_write_dict(value_dict): the output register is read first
   * (a failure is "Incorrect response."), the pairs are merged into it, and
   * the result is written as dio_output_write_port would write it.
   */
  method OutputWriteDict(h: Hat, items: seq<Item>, readResult: int, orig: bv8, writeResult: int)
    returns (c: Call<Byte, ()>)
    ensures Guarded(h).Some? ==> c == Call(None, Raised(Guarded(h).value))
    ensures h.initialized && readResult != Code(Success) ==>
      c == Call(None, Raised(HatError(h.address, INCORRECT_RESPONSE)))
    ensures h.initialized && readResult == Code(Success) && DictMerge(orig, items).None? ==>
      c == Call(None, Raised(ValueError))
    ensures h.initialized && readResult == Code(Success) && DictMerge(orig, items).Some? ==>
      c == OutputWritePort(h, DictMerge(orig, items).value as int, writeResult)
  {
    if Guarded(h).Some? {
      return Call(None, Raised(Guarded(h).value));
    }
    if readResult != Code(Success) {
      return Call(None, Raised(HatError(h.address, INCORRECT_RESPONSE)));
    }
    var merged := MergeItems(orig, items);
    if merged.None? {
      return Call(None, Raised(ValueError));
    }
    c := Call(Some(merged.value as int), Answer(h.address, writeResult, false, ()));
  }

  /**
   * dio_config_write_dict(item, value_dict): as OutputWriteDict over the
   * item's configuration register. A failed read is "Incorrect response."
   * even when the item is unknown; the write reports an unknown item as
   * ValueError.
   */
  method ConfigWriteDict(h: Hat, item: int, items: seq<Item>, readResult: int, orig: bv8, writeResult: int)
    returns (c: Call<(Byte, Byte), ()>)
    ensures Guarded(h).Some? ==> c == Call(None, Raised(Guarded(h).value))
    ensures h.initialized && readResult != Code(Success) ==>
      c == Call(None, Raised(HatError(h.address, INCORRECT_RESPONSE)))
    ensures h.initialized && readResult == Code(Success) && DictMerge(orig, items).None? ==>
      c == Call(None, Raised(ValueError))
    ensures h.initialized && readResult == Code(Success) && DictMerge(orig, items).Some? ==>
      c == ConfigWritePort(h, item, DictMerge(orig, items).value as int, writeResult)
  {
    if Guarded(h).Some? {
      return Call(None, Raised(Guarded(h).value));
    }
    if readResult != Code(Success) {
      return Call(None, Raised(HatError(h.address, INCORRECT_RESPONSE)));
    }
    var merged := MergeItems(orig, items);
    if merged.None? {
      return Call(None, Raised(ValueError));
    }
    c := Call(Some((ToByte(item), merged.value as int)), Answer(h.address, writeResult, true, ()));
  }

  // ---------------------------------------------------------------------
  // The reads

  /** tuple((reg >> i) & 0x01 for i in range(8)) */
  function ReadTuple(reg: bv8): (t: seq<nat>)
    ensures |t| == DIO_NUM_CHANNELS
  {
    seq(DIO_NUM_CHANNELS, i requires 0 <= i < DIO_NUM_CHANNELS => if RegBit(reg, Bv(i)) == 0 then 0 else 1)
  }

  /** The tuple loses nothing: two registers with the same tuple are the same byte. */
  lemma ReadTupleInjective(a: bv8, b: bv8)
    requires ReadTuple(a) == ReadTuple(b)
    ensures a == b
  {
    var ta, tb := ReadTuple(a), ReadTuple(b);
    assert ta[0] == tb[0] && ta[1] == tb[1] && ta[2] == tb[2] && ta[3] == tb[3];
    assert ta[4] == tb[4] && ta[5] == tb[5] && ta[6] == tb[6] && ta[7] == tb[7];
    assert RegBit(a, 0) == RegBit(b, 0) && RegBit(a, 1) == RegBit(b, 1);
    assert RegBit(a, 2) == RegBit(b, 2) && RegBit(a, 3) == RegBit(b, 3);
    assert RegBit(a, 4) == RegBit(b, 4) && RegBit(a, 5) == RegBit(b, 5);
    assert RegBit(a, 6) == RegBit(b, 6) && RegBit(a, 7) == RegBit(b, 7);
  }

  /**
   * Reading the register back as a tuple after a dictionary write shows the
   * last value given for each listed channel and the old value for the
   * others.
   */
  lemma DictWriteReadBack(base: bv8, items: seq<Item>, channel: nat)
    requires DictMerge(base, items).Some? && channel < DIO_NUM_CHANNELS
    ensures ReadTuple(DictMerge(base, items).value)[channel] ==
      match LastValue(items, channel)
      case Some(v) => v
      case None => ReadTuple(base)[channel]
  {
    var merged := Merged(base, items);
    MergedBits(base, items, channel);
  }

  /**
   * dio_input_read_tuple, dio_output_read_tuple, dio_int_status_read_tuple
   * and dio_config_read_tuple: the port read, then its byte as a tuple of
   * bits. Only the configuration read (checksItem) reports BAD_PARAMETER
   * as ValueError.
   */
  function TupleRead(h: Hat, result: int, reg: bv8, checksItem: bool): (r: Outcome<seq<nat>>)
    ensures Guarded(h).Some? ==> r == Raised(Guarded(h).value)
    ensures h.initialized ==> r == Answer(h.address, result, checksItem, ReadTuple(reg))
    ensures r.Returned? ==> |r.value| == DIO_NUM_CHANNELS && forall i :: 0 <= i < |r.value| ==> r.value[i] <= 1
  {
    if Guarded(h).Some? then Raised(Guarded(h).value) else Answer(h.address, result, checksItem, ReadTuple(reg))
  }

  /**
   * dio_input_read_bit, dio_output_read_bit, dio_int_status_read_bit and
   * dio_config_read_bit: ValueError for a channel outside 0 to 7 before
   * anything is sent; then the value the library read.
   */
  function ReadBit(h: Hat, channel: int, result: int, value: Byte, checksItem: bool): (c: Call<Byte, Byte>)
    ensures Guarded(h).Some? ==> c == Call(None, Raised(Guarded(h).value))
    ensures c.sent.Some? <==> h.initialized && 0 <= channel < DIO_NUM_CHANNELS
    ensures h.initialized && !(0 <= channel < DIO_NUM_CHANNELS) ==> c.outcome == Raised(ValueError)
    ensures c.sent.Some? ==> c.sent.value == channel && c.outcome == Answer(h.address, result, checksItem, value)
  {
    if Guarded(h).Some? then Call(None, Raised(Guarded(h).value))
    else if !(0 <= channel < DIO_NUM_CHANNELS) then Call(None, Raised(ValueError))
    else Call(Some(channel), Answer(h.address, result, checksItem, value))
  }
}
