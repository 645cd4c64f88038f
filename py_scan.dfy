// The scan methods the MCC 128 and MCC 172 Python classes share word for
// word (daqhats/mcc128.py, daqhats/mcc172.py): the decoding of the status
// word into namedtuple fields, a_in_scan_status, the sizing of the ctypes
// buffer and the result handling of a_in_scan_read, and the mapping of the
// result of the library's scan start.  The native calls' results, the
// status word, the counts and the buffer contents they write are
// parameters.

module PyScan {
  import opened DaqHats
  import opened PyHats
  import ScanEngine

  // ---------------------------------------------------------------------
  // The status word

  /** The four status fields of the scan namedtuples. */
  datatype StatusFlags = StatusFlags(running: bool, hardwareOverrun: bool, bufferOverrun: bool, triggered: bool)

  /** (status & (1 << k)) != 0 tests bit k alone. */
  lemma MaskedBit(status: nat, k: nat)
    ensures And(status, Pow2(k)) != 0 <==> Bit(status, k) == 1
  {
    AndNonZero(status, Pow2(k));
    ShiftedOneBits(k, k);
    forall i: nat | Bit(status, i) == 1 && Bit(Pow2(k), i) == 1
      ensures i == k
    {
      ShiftedOneBits(k, i);
    }
  }

  /** The fields as (status.value & STATUS_x) != 0 gives them. */
  function Flags(status: nat): (f: StatusFlags)
    ensures f.hardwareOverrun <==> Bit(status, 0) == 1
    ensures f.bufferOverrun <==> Bit(status, 1) == 1
    ensures f.triggered <==> Bit(status, 2) == 1
    ensures f.running <==> Bit(status, 3) == 1
  {
    assert Pow2(0) == STATUS_HW_OVERRUN && Pow2(1) == STATUS_BUFFER_OVERRUN;
    assert Pow2(2) == STATUS_TRIGGERED && Pow2(3) == STATUS_RUNNING;
    MaskedBit(status, 0);
    MaskedBit(status, 1);
    MaskedBit(status, 2);
    MaskedBit(status, 3);
    StatusFlags(And(status, STATUS_RUNNING) != 0, And(status, STATUS_HW_OVERRUN) != 0,
                And(status, STATUS_BUFFER_OVERRUN) != 0, And(status, STATUS_TRIGGERED) != 0)
  }

  /** Decoding the word the library's scan thread reports gives back the flags it was built from. */
  lemma FlagsOfStatusWord(hwOverrun: bool, bufferOverrun: bool, triggered: bool, running: bool)
    ensures Flags(ScanEngine.StatusWord(hwOverrun, bufferOverrun, triggered, running))
      == StatusFlags(running, hwOverrun, bufferOverrun, triggered)
  {
    var w := ScanEngine.StatusWord(hwOverrun, bufferOverrun, triggered, running);
    var f := Flags(w);
    assert f.running == running && f.hardwareOverrun == hwOverrun;
    assert f.bufferOverrun == bufferOverrun && f.triggered == triggered;
  }

  // ---------------------------------------------------------------------
  // a_in_scan_status

  const SCAN_NOT_ACTIVE: string := "Scan not active."

  /** The namedtuple a_in_scan_status returns. */
  datatype ScanStatus = ScanStatus(flags: StatusFlags, samplesAvailable: nat)

  /**
   * a_in_scan_status: RESOURCE_UNAVAIL means no scan is active, any other
   * failure is reported with its code, and success decodes the status word.
   */
  function Status(h: Hat, result: int, status: nat, available: nat): (r: Outcome<ScanStatus>)
    ensures !h.initialized ==> r == Raised(HatError(h.address, NOT_INITIALIZED))
    ensures h.initialized && result == Code(ResourceUnavail) ==> r == Raised(HatError(h.address, SCAN_NOT_ACTIVE))
    ensures h.initialized && result != Code(ResourceUnavail) && result != Code(Success) ==>
      r == Raised(HatError(h.address, IncorrectResponseCode(result)))
    ensures r.Returned? <==> h.initialized && result == Code(Success)
    ensures r.Returned? ==> r.value.flags == Flags(status) && r.value.samplesAvailable == available
  {
    if !h.initialized then Raised(HatError(h.address, NOT_INITIALIZED))
    else if result == Code(ResourceUnavail) then Raised(HatError(h.address, SCAN_NOT_ACTIVE))
    else if result != Code(Success) then Raised(HatError(h.address, IncorrectResponseCode(result)))
    else Returned(ScanStatus(Flags(status), available))
  }

  /** The message of a failed status read names the library's result, so different results raise different errors. */
  lemma StatusErrorsIdentify(h: Hat, r1: int, r2: int, status: nat, available: nat)
    requires Status(h, r1, status, available) == Status(h, r2, status, available)
    requires h.initialized && r1 != Code(Success)
    ensures r1 == r2
  {
    var m1 := Status(h, r1, status, available).error.value;
    assert SCAN_NOT_ACTIVE[0] == 'S' && IncorrectResponseCode(r1)[0] == 'I' && IncorrectResponseCode(r2)[0] == 'I';
    if r1 != Code(ResourceUnavail) && r2 != Code(ResourceUnavail) {
      IncorrectResponseCodeInjective(r1, r2);
    }
  }

  // ---------------------------------------------------------------------
  // a_in_scan_read

  /** The samples per channel asked of the library and the size of the ctypes buffer (None: no buffer is passed). */
  datatype Plan = Plan(samplesToRead: nat, bufferSize: Option<nat>)

  /**
   * The buffer a_in_scan_read allocates: for a negative count, what the
   * status call reports available; for zero, none at all; otherwise the
   * count asked for; always whole scans of numChannels values.
   */
  function ReadPlan(samplesPerChannel: int, available: nat, numChannels: nat): (p: Plan)
    ensures p.samplesToRead == (if samplesPerChannel < 0 then available else if samplesPerChannel == 0 then 0 else samplesPerChannel)
    ensures p.bufferSize.None? <==> samplesPerChannel == 0
    ensures p.bufferSize.Some? ==> p.bufferSize.value == p.samplesToRead * numChannels
  {
    if samplesPerChannel < 0 then Plan(available, Some(available * numChannels))
    else if samplesPerChannel == 0 then Plan(0, None)
    else Plan(samplesPerChannel, Some(samplesPerChannel * numChannels))
  }

  /** The values the list comprehension can take from the buffer without raising. */
  function Capacity(p: Plan): nat
  {
    if p.bufferSize.Some? then p.bufferSize.value else 0
  }

  /** Every call a_in_scan_read makes reports success, or TIMEOUT for the read. */
  predicate Reported(h: Hat, samplesPerChannel: int, statusResult: int, readResult: int)
  {
    h.initialized && (samplesPerChannel >= 0 || statusResult == Code(Success)) &&
    (readResult == Code(Success) || readResult == Code(Timeout))
  }

  /** The namedtuple a_in_scan_read returns. */
  datatype ScanData = ScanData(flags: StatusFlags, timeout: bool, data: seq<real>)

  /**
   * a_in_scan_read(samples_per_channel, timeout). For a negative count the
   * status call comes first (statusResult, available). The read call then
   * reports readResult, the status word, the samples read per channel, and
   * leaves buffer(i) in element i of the ctypes buffer. TIMEOUT is not an
   * error: it sets the timeout field. The data is the first
   * samplesRead * numChannels elements of the buffer, and indexing past
   * the buffer, or into None, raises.
   */
  function ScanRead(h: Hat, numChannels: nat, samplesPerChannel: int, statusResult: int, available: nat,
                    readResult: int, status: nat, samplesRead: nat, buffer: nat -> real): (r: Outcome<ScanData>)
    ensures !h.initialized ==> r == Raised(HatError(h.address, NOT_INITIALIZED))
    ensures h.initialized && samplesPerChannel < 0 && statusResult != Code(Success) ==>
      r == Raised(HatError(h.address, IncorrectResponseCode(statusResult)))
    ensures r.Returned? <==> (Reported(h, samplesPerChannel, statusResult, readResult) &&
      samplesRead * numChannels <= Capacity(ReadPlan(samplesPerChannel, available, numChannels)))
    ensures r.Returned? ==> r.value.flags == Flags(status) && (r.value.timeout <==> readResult == Code(Timeout))
    ensures r.Returned? ==> |r.value.data| == samplesRead * numChannels
    ensures r.Returned? ==> forall i :: 0 <= i < |r.value.data| ==> r.value.data[i] == buffer(i)
    ensures h.initialized && (samplesPerChannel >= 0 || statusResult == Code(Success)) ==>
      (readResult == Code(BadParameter) ==> r == Raised(ValueError)) &&
      (readResult == Code(ResourceUnavail) ==> r == Raised(HatError(h.address, SCAN_NOT_ACTIVE))) &&
      (readResult !in {Code(Success), Code(Timeout), Code(BadParameter), Code(ResourceUnavail)} ==>
         r == Raised(HatError(h.address, IncorrectResponseCode(readResult))))
    ensures r == Raised(TypeError) <==> (Reported(h, samplesPerChannel, statusResult, readResult) &&
      samplesPerChannel == 0 && samplesRead * numChannels > 0)
  {
    if !h.initialized then Raised(HatError(h.address, NOT_INITIALIZED))
    else if samplesPerChannel < 0 && statusResult != Code(Success) then
      Raised(HatError(h.address, IncorrectResponseCode(statusResult)))
    else
      var plan := ReadPlan(samplesPerChannel, available, numChannels);
      if readResult == Code(BadParameter) then Raised(ValueError)
      else if readResult == Code(ResourceUnavail) then Raised(HatError(h.address, SCAN_NOT_ACTIVE))
      else if readResult != Code(Timeout) && readResult != Code(Success) then
        Raised(HatError(h.address, IncorrectResponseCode(readResult)))
      else
        var total := samplesRead * numChannels;
        if plan.bufferSize.None? && total > 0 then Raised(TypeError)
        else if plan.bufferSize.Some? && total > plan.bufferSize.value then Raised(IndexError)
        else Returned(ScanData(Flags(status), readResult == Code(Timeout), seq(total, i requires 0 <= i < total => buffer(i))))
  }

  /**
   * The library never reports more samples than it was asked for, so the
   * buffer is always large enough: a successful or timed-out read returns,
   * and holds whole scans.
   */
  lemma ReadFitsBuffer(h: Hat, numChannels: nat, samplesPerChannel: int, statusResult: int, available: nat,
                       readResult: int, status: nat, samplesRead: nat, buffer: nat -> real)
    requires Reported(h, samplesPerChannel, statusResult, readResult)
    requires samplesRead <= ReadPlan(samplesPerChannel, available, numChannels).samplesToRead
    ensures ScanRead(h, numChannels, samplesPerChannel, statusResult, available, readResult, status, samplesRead, buffer).Returned?
    ensures |ScanRead(h, numChannels, samplesPerChannel, statusResult, available, readResult, status, samplesRead, buffer).value.data|
      % (if numChannels == 0 then 1 else numChannels) == 0
  {
    var plan := ReadPlan(samplesPerChannel, available, numChannels);
    MulLeq(samplesRead, plan.samplesToRead, numChannels);
    if numChannels > 0 {
      MulDivCancel(samplesRead, numChannels);
    }
  }

  /** Reading everything available, when the library delivers it all, returns available * numChannels values. */
  lemma ReadAllLength(h: Hat, numChannels: nat, statusResult: int, available: nat,
                      readResult: int, status: nat, buffer: nat -> real)
    requires h.initialized && statusResult == Code(Success) && readResult == Code(Success)
    ensures ScanRead(h, numChannels, -1, statusResult, available, readResult, status, available, buffer).Returned?
    ensures |ScanRead(h, numChannels, -1, statusResult, available, readResult, status, available, buffer).value.data|
      == available * numChannels
  {
    ReadFitsBuffer(h, numChannels, -1, statusResult, available, readResult, status, available, buffer);
  }

  // ---------------------------------------------------------------------
  // a_in_scan_start: the handling of the library's result

  const SCAN_ALREADY_ACTIVE: string := "A scan is already active."
  const NO_MEMORY: string := "Memory could not be allocated."

  /** BAD_PARAMETER raises ValueError, BUSY and RESOURCE_UNAVAIL their own HatError, any other failure its code. */
  function StartAnswer(address: nat, result: int): (r: Outcome<()>)
    ensures r.Returned? <==> result == Code(Success)
    ensures r == Raised(ValueError) <==> result == Code(BadParameter)
    ensures result == Code(Busy) ==> r == Raised(HatError(address, SCAN_ALREADY_ACTIVE))
    ensures result == Code(ResourceUnavail) ==> r == Raised(HatError(address, NO_MEMORY))
    ensures result !in {Code(Success), Code(BadParameter), Code(Busy), Code(ResourceUnavail)} ==>
      r == Raised(HatError(address, IncorrectResponseCode(result)))
  {
    if result == Code(BadParameter) then Raised(ValueError)
    else if result == Code(Busy) then Raised(HatError(address, SCAN_ALREADY_ACTIVE))
    else if result == Code(ResourceUnavail) then Raised(HatError(address, NO_MEMORY))
    else if result != Code(Success) then Raised(HatError(address, IncorrectResponseCode(result)))
    else Returned(())
  }

  /** What a_in_scan_start raises tells the caller exactly which result the library returned. */
  lemma StartAnswerInjective(address: nat, r1: int, r2: int)
    requires StartAnswer(address, r1) == StartAnswer(address, r2)
    ensures r1 == r2
  {
    if r1 != Code(Success) && r2 != Code(Success) && r1 != Code(BadParameter) && r2 != Code(BadParameter) {
      var m1, m2 := StartAnswer(address, r1).error.value, StartAnswer(address, r2).error.value;
      StartMessageHead(address, r1);
      StartMessageHead(address, r2);
      assert m1 == m2;
      if r1 != Code(Busy) && r1 != Code(ResourceUnavail) {
        IncorrectResponseCodeInjective(r1, r2);
      }
    }
  }

  /** The first letter of the message tells BUSY, RESOURCE_UNAVAIL and the other failures apart. */
  lemma StartMessageHead(address: nat, result: int)
    requires result != Code(Success) && result != Code(BadParameter)
    ensures |StartAnswer(address, result).error.value| > 0
    ensures StartAnswer(address, result).error.value[0] == 'A' <==> result == Code(Busy)
    ensures StartAnswer(address, result).error.value[0] == 'M' <==> result == Code(ResourceUnavail)
  {
    assert SCAN_ALREADY_ACTIVE[0] == 'A' && NO_MEMORY[0] == 'M';
    assert IncorrectResponseCode(result)[0] == 'I';
  }
}
