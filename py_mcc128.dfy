// The MCC 128 Python class (daqhats/mcc128.py) where it does more than
// hand its arguments to libdaqhats: the checks of a_in_scan_start before
// the library is called, the result mapping of the mode and range
// setters, and the mode check of test_clock.  a_in_scan_status and
// a_in_scan_read are PyScan.Status and PyScan.ScanRead.

module PyMcc128 {
  import opened DaqHats
  import opened PyHats
  import PyScan

  const NUM_CHANNELS: nat := 8
  const MAX_SAMPLE_RATE: real := 100000.0

  // ---------------------------------------------------------------------
  // a_in_scan_start

  /**
   * The channels the counting loop finds: bits 0 to 7 of the mask. On a
   * negative mask Python's & works on the two's complement, whose low
   * eight bits are those of mask % 256, the byte ctypes hands the library.
   */
  function LowChannels(channelMask: int): (n: nat)
    ensures n <= NUM_CHANNELS
  {
    PopCount(channelMask % 256, NUM_CHANNELS)
  }

  /** The loop of a_in_scan_start that counts the set bits among bits 0 to 7. */
  method CountChannels(channelMask: int) returns (numChannels: nat)
    ensures numChannels == LowChannels(channelMask)
  {
    var m: nat := channelMask % 256;
    numChannels := 0;
    for index := 0 to NUM_CHANNELS
      invariant numChannels == PopCount(m, index)
    {
      var bitMask := Pow2(index);
      PyScan.MaskedBit(m, index);
      if And(m, bitMask) != 0 {
        numChannels := numChannels + 1;
      }
    }
  }

  /** The checks pass: a non-zero mask whose channels together stay within the aggregate rate. */
  predicate StartAccepted(channelMask: int, rate: real)
  {
    channelMask != 0 && WithinRate(LowChannels(channelMask), rate)
  }

  /** count channels at rate S/s each stay within the aggregate maximum. */
  predicate WithinRate(count: nat, rate: real)
  {
    count as real * rate <= MAX_SAMPLE_RATE
  }

  /**
   * a_in_scan_start(channel_mask, samples_per_channel, rate, options):
   * ValueError for a zero mask, and for a channel count times the rate
   * above 100000 S/s, before anything is sent; otherwise the mask goes to
   * the library as a c_ubyte and its result is mapped by StartAnswer.
   */
  method ScanStart(h: Hat, channelMask: int, rate: real, result: int) returns (c: Call<Byte, ()>)
    ensures Guarded(h).Some? ==> c == Call(None, Raised(Guarded(h).value))
    ensures h.initialized && !StartAccepted(channelMask, rate) ==> c == Call(None, Raised(ValueError))
    ensures c.sent.Some? <==> h.initialized && StartAccepted(channelMask, rate)
    ensures c.sent.Some? ==> c.sent.value as int == channelMask % 256 && c.outcome == PyScan.StartAnswer(h.address, result)
  {
    if Guarded(h).Some? {
      return Call(None, Raised(Guarded(h).value));
    }
    if channelMask == 0 {
      return Call(None, Raised(ValueError));
    }
    var numChannels := CountChannels(channelMask);
    if !WithinRate(numChannels, rate) {
      return Call(None, Raised(ValueError));
    }
    c := Call(Some(ToByte(channelMask)), PyScan.StartAnswer(h.address, result));
  }

  /** A mask with a subset of the channels has at most as many. */
  lemma {:induction false} PopCountSubset(sub: nat, mask: nat, n: nat)
    requires forall i :: 0 <= i < n ==> Bit(sub, i) <= Bit(mask, i)
    ensures PopCount(sub, n) <= PopCount(mask, n)
  {
    if n > 0 {
      PopCountSubset(sub, mask, n - 1);
    }
  }

  /** Dropping channels from an accepted scan keeps it accepted at the same rate. */
  lemma FewerChannelsAccepted(sub: int, channelMask: int, rate: real)
    requires StartAccepted(channelMask, rate) && sub != 0
    requires forall i :: 0 <= i < NUM_CHANNELS ==> Bit(sub % 256, i) <= Bit(channelMask % 256, i)
    ensures StartAccepted(sub, rate)
  {
    SubsetWithinRate(sub % 256, channelMask % 256, NUM_CHANNELS, rate);
  }

  lemma SubsetWithinRate(sub: nat, mask: nat, n: nat, rate: real)
    requires forall i :: 0 <= i < n ==> Bit(sub, i) <= Bit(mask, i)
    requires WithinRate(PopCount(mask, n), rate)
    ensures WithinRate(PopCount(sub, n), rate)
  {
    PopCountSubset(sub, mask, n);
    ScaleDown(PopCount(sub, n), PopCount(mask, n), rate);
  }

  /** Fewer channels at the same rate stay within the maximum. */
  lemma ScaleDown(a: nat, b: nat, rate: real)
    requires a <= b && WithinRate(b, rate)
    ensures WithinRate(a, rate)
  {
    if rate >= 0.0 {
      assert b as real * rate - a as real * rate == (b - a) as real * rate;
    } else {
      assert a as real * rate <= 0.0;
    }
  }

  // ---------------------------------------------------------------------
  // a_in_mode_write, a_in_range_write

  const MODE_BUSY: string := "The mode cannot be changed while " + "a scan is running."
  const RANGE_BUSY: string := "The range cannot be changed while a scan is " + "running."

  /** The result mapping of the setters: BAD_PARAMETER is ValueError, BUSY its own HatError, anything else its code. */
  function SetterAnswer(h: Hat, result: int, busy: string): (r: Outcome<()>)
    ensures Guarded(h).Some? ==> r == Raised(Guarded(h).value)
    ensures r.Returned? <==> h.initialized && result == Code(Success)
    ensures h.initialized ==> (r == Raised(ValueError) <==> result == Code(BadParameter))
    ensures h.initialized && result == Code(Busy) ==> r == Raised(HatError(h.address, busy))
    ensures h.initialized && result !in {Code(Success), Code(BadParameter), Code(Busy)} ==>
      r == Raised(HatError(h.address, IncorrectResponseCode(result)))
  {
    if Guarded(h).Some? then Raised(Guarded(h).value)
    else if result == Code(BadParameter) then Raised(ValueError)
    else if result == Code(Busy) then Raised(HatError(h.address, busy))
    else if result != Code(Success) then Raised(HatError(h.address, IncorrectResponseCode(result)))
    else Returned(())
  }

  /** a_in_mode_write(a_in_mode): the library checks the mode; its result is mapped by SetterAnswer. */
  function ModeWrite(h: Hat, result: int): (r: Outcome<()>)
    ensures r.Returned? <==> h.initialized && result == Code(Success)
    ensures h.initialized ==> (r == Raised(ValueError) <==> result == Code(BadParameter))
    ensures h.initialized && result == Code(Busy) ==> r == Raised(HatError(h.address, MODE_BUSY))
  {
    SetterAnswer(h, result, MODE_BUSY)
  }

  /** a_in_range_write(a_in_range): as ModeWrite, with the range's own BUSY message. */
  function RangeWrite(h: Hat, result: int): (r: Outcome<()>)
    ensures r.Returned? <==> h.initialized && result == Code(Success)
    ensures h.initialized ==> (r == Raised(ValueError) <==> result == Code(BadParameter))
    ensures h.initialized && result == Code(Busy) ==> r == Raised(HatError(h.address, RANGE_BUSY))
  {
    SetterAnswer(h, result, RANGE_BUSY)
  }

  /** A setter's error tells the caller exactly which result the library returned. */
  lemma SetterAnswerInjective(h: Hat, r1: int, r2: int, busy: string)
    requires h.initialized && |busy| > 0 && busy[0] != 'I'
    requires SetterAnswer(h, r1, busy) == SetterAnswer(h, r2, busy)
    ensures r1 == r2
  {
    if r1 != Code(Success) && r2 != Code(Success) && r1 != Code(BadParameter) && r2 != Code(BadParameter) {
      assert IncorrectResponseCode(r1)[0] == 'I' && IncorrectResponseCode(r2)[0] == 'I';
      if r1 != Code(Busy) && r2 != Code(Busy) {
        IncorrectResponseCodeInjective(r1, r2);
      }
    }
  }

  /** Both setters' BUSY messages differ from every "Incorrect response" message. */
  lemma BusyMessagesStandApart()
    ensures |MODE_BUSY| > 0 && MODE_BUSY[0] != 'I' && |RANGE_BUSY| > 0 && RANGE_BUSY[0] != 'I'
  {
    assert MODE_BUSY[0] == 'T' && RANGE_BUSY[0] == 'T';
  }

  // ---------------------------------------------------------------------
  // test_clock

  const CLOCK_BUSY: string := "Cannot test the CLK pin while a scan is running."

  /**
   * test_clock(mode): ValueError for a mode outside 0 to 3 before anything
   * is sent; BUSY is its own HatError and any other failure "Incorrect
   * response."; success returns the value the library read.
   */
  function TestClock(h: Hat, mode: int, result: int, value: Byte): (c: Call<Byte, Byte>)
    ensures Guarded(h).Some? ==> c == Call(None, Raised(Guarded(h).value))
    ensures c.sent.Some? <==> h.initialized && 0 <= mode < 4
    ensures c.sent.Some? ==> c.sent.value == mode
    ensures h.initialized && !(0 <= mode < 4) ==> c.outcome == Raised(ValueError)
    ensures c.sent.Some? ==> c.outcome == (if result == Code(Busy) then Raised(HatError(h.address, CLOCK_BUSY))
                                           else if result != Code(Success) then Raised(HatError(h.address, INCORRECT_RESPONSE))
                                           else Returned(value))
  {
    if Guarded(h).Some? then Call(None, Raised(Guarded(h).value))
    else if !(0 <= mode < 4) then Call(None, Raised(ValueError))
    else if result == Code(Busy) then Call(Some(mode), Raised(HatError(h.address, CLOCK_BUSY)))
    else if result != Code(Success) then Call(Some(mode), Raised(HatError(h.address, INCORRECT_RESPONSE)))
    else Call(Some(mode), Returned(value))
  }
}
