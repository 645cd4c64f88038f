// The analog output converter of the MCC 152 (lib/mcc152_dac.c): the
// three-byte SPI command frames, the two-channel write with one
// simultaneous update, and the lazily opened SPI device handles.
//
// The SPI driver and the board lock are outside the model: a transfer
// that passes the library's own checks ends with a driver outcome given
// as a parameter, and the frames handed to the transfer are returned.

module Mcc152Dac {
  import opened DaqHats

  const DAC_A: Byte := 0x00
  const DAC_B: Byte := 0x01
  const DACCMD_WRITE: Byte := 0x00
  const DACCMD_WRITE_LOAD_ALL: Byte := 0x10
  const DACCMD_WRITE_LOAD: Byte := 0x18
  const DACCMD_REF_MODE: Byte := 0x38
  const MAX_CHANNEL: nat := 1
  const MAX_CODE: nat := 4095
  const NUM_SPI_DEVICES: nat := 2

  /** The outcomes the driver can give a transfer: the lock, the mode ioctl and the transfer ioctl. */
  predicate SpiOutcome(r: ResultCode)
  {
    r == Success || r == LockTimeout || r == CommsFailure
  }

  /** _mcc152_spi_transfer: the library's checks, then the driver's outcome. */
  function Transfer(device: nat, address: nat, deviceOpen: bool, outcome: ResultCode): (r: ResultCode)
    requires SpiOutcome(outcome)
    ensures r == Success <==> device < NUM_SPI_DEVICES && address < MAX_NUMBER_HATS && deviceOpen && outcome == Success
    ensures device >= NUM_SPI_DEVICES || address >= MAX_NUMBER_HATS ==> r == BadParameter
    ensures device < NUM_SPI_DEVICES && address < MAX_NUMBER_HATS && !deviceOpen ==> r == ResourceUnavail
  {
    if device >= NUM_SPI_DEVICES || address >= MAX_NUMBER_HATS then BadParameter
    else if !deviceOpen then ResourceUnavail
    else outcome
  }

  /** The code a frame carries: the sixteen bits after the command byte, shifted right by four. */
  function FrameCode(frame: seq<Byte>): (code: nat)
    requires |frame| == 3
    ensures code <= MAX_CODE
  {
    ((frame[1] as int) * 256 + (frame[2] as int)) / 16
  }

  /**
   * The frame for a command and a code: the code shifted left four bits,
   * high byte first.
   */
  method EncodeFrame(command: Byte, code: nat) returns (frame: seq<Byte>)
    requires code <= MAX_CODE
    ensures |frame| == 3 && frame[0] == command
    ensures FrameCode(frame) == code && frame[2] % 16 == 0
  {
    var data := new Byte[3];
    data[0] := command;
    var value := code * 16;
    data[1] := value / 256;
    data[2] := value % 256;
    frame := data[..];
    assert (frame[1] as int) * 256 + (frame[2] as int) == value;
  }

  /** Two different codes never give the same frame. */
  lemma FrameCodeInjective(f: seq<Byte>, g: seq<Byte>)
    requires |f| == 3 && |g| == 3 && f[0] == g[0]
    requires f[2] % 16 == 0 && g[2] % 16 == 0
    requires FrameCode(f) == FrameCode(g)
    ensures f == g
  {
    var vf := (f[1] as int) * 256 + (f[2] as int);
    var vg := (g[1] as int) * 256 + (g[2] as int);
    var qf := 16 * (f[1] as int) + (f[2] as int) / 16;
    var qg := 16 * (g[1] as int) + (g[2] as int) / 16;
    DivUnique(vf, 16, qf, 0);
    DivUnique(vg, 16, qg, 0);
    assert vf == vg;
    DivUnique(vf, 256, f[1] as int, f[2] as int);
    DivUnique(vg, 256, g[1] as int, g[2] as int);
    assert f == [f[0], f[1], f[2]] && g == [g[0], g[1], g[2]];
  }

  /** The lazily opened handles of the two SPI devices: spi_fd[]. */
  class DacPort {
    const spiOpen: array<bool>

    predicate Valid()
      reads this
    {
      spiOpen.Length == NUM_SPI_DEVICES
    }

    constructor ()
      ensures Valid() && fresh(spiOpen)
      ensures !spiOpen[0] && !spiOpen[1]
    {
      spiOpen := new bool[NUM_SPI_DEVICES](_ => false);
    }

    /**
     * _mcc152_dac_write: one channel written and loaded.  The frame is
     * handed to the transfer only when device, address, channel and code
     * are valid.
     */
    method Write(device: nat, address: nat, channel: nat, code: nat, outcome: ResultCode)
      returns (result: ResultCode, sent: seq<seq<Byte>>)
      requires Valid() && SpiOutcome(outcome)
      ensures device >= NUM_SPI_DEVICES || address >= MAX_NUMBER_HATS || channel > MAX_CHANNEL || code > MAX_CODE ==>
        result == BadParameter && sent == []
      ensures device < NUM_SPI_DEVICES && address < MAX_NUMBER_HATS && channel <= MAX_CHANNEL && code <= MAX_CODE ==>
        result == Transfer(device, address, spiOpen[device], outcome) &&
        |sent| == 1 && |sent[0]| == 3 &&
        sent[0][0] == DACCMD_WRITE_LOAD + channel && FrameCode(sent[0]) == code
    {
      if device >= NUM_SPI_DEVICES || address >= MAX_NUMBER_HATS || channel > MAX_CHANNEL || code > MAX_CODE {
        return BadParameter, [];
      }
      var command := if channel == 0 then DACCMD_WRITE_LOAD + DAC_A else DACCMD_WRITE_LOAD + DAC_B;
      var frame := EncodeFrame(command, code);
      sent := [frame];
      result := Transfer(device, address, spiOpen[device], outcome);
    }

    /**
     * _mcc152_dac_write_both: channel A is written without loading, then
     * channel B is written and both outputs load together; a failure of
     * the first transfer skips the second.
     */
    method WriteBoth(device: nat, address: nat, code0: nat, code1: nat, outcome0: ResultCode, outcome1: ResultCode)
      returns (result: ResultCode, sent: seq<seq<Byte>>)
      requires Valid() && SpiOutcome(outcome0) && SpiOutcome(outcome1)
      ensures device >= NUM_SPI_DEVICES || address >= MAX_NUMBER_HATS || code0 > MAX_CODE || code1 > MAX_CODE ==>
        result == BadParameter && sent == []
      ensures device < NUM_SPI_DEVICES && address < MAX_NUMBER_HATS && code0 <= MAX_CODE && code1 <= MAX_CODE ==>
        var first := Transfer(device, address, spiOpen[device], outcome0);
        (result == Success <==> first == Success && outcome1 == Success) &&
        (first != Success ==> result == first && |sent| == 1) &&
        (first == Success ==> result == outcome1 && |sent| == 2) &&
        (forall k :: 0 <= k < |sent| ==> |sent[k]| == 3) &&
        sent[0][0] == DACCMD_WRITE + DAC_A && FrameCode(sent[0]) == code0 &&
        (|sent| == 2 ==> sent[1][0] == DACCMD_WRITE_LOAD_ALL + DAC_B && FrameCode(sent[1]) == code1)
    {
      if device >= NUM_SPI_DEVICES || address >= MAX_NUMBER_HATS || code0 > MAX_CODE || code1 > MAX_CODE {
        return BadParameter, [];
      }
      var frame0 := EncodeFrame(DACCMD_WRITE + DAC_A, code0);
      sent := [frame0];
      result := Transfer(device, address, spiOpen[device], outcome0);
      if result != Success {
        return;
      }
      var frame1 := EncodeFrame(DACCMD_WRITE_LOAD_ALL + DAC_B, code1);
      sent := sent + [frame1];
      result := Transfer(device, address, spiOpen[device], outcome1);
    }

    /**
     * _mcc152_dac_init: the device's handle is opened if it is not open
     * yet, and the converter is switched to its internal reference.
     */
    method Init(device: nat, address: nat, openOk: bool, outcome: ResultCode)
      returns (result: ResultCode, sent: seq<seq<Byte>>)
      requires Valid() && SpiOutcome(outcome)
      modifies spiOpen
      ensures Valid()
      ensures address >= MAX_NUMBER_HATS || device >= NUM_SPI_DEVICES ==>
        result == BadParameter && sent == [] && spiOpen[..] == old(spiOpen[..])
      ensures address < MAX_NUMBER_HATS && device < NUM_SPI_DEVICES ==>
        spiOpen[..] == old(spiOpen[..])[device := old(spiOpen[device]) || openOk] &&
        (spiOpen[device] ==> result == outcome && sent == [[DACCMD_REF_MODE, 0, 1]]) &&
        (!spiOpen[device] ==> result == ResourceUnavail && sent == [])
    {
      if address >= MAX_NUMBER_HATS || device >= NUM_SPI_DEVICES {
        return BadParameter, [];
      }
      if !spiOpen[device] {
        spiOpen[device] := openOk;
        if !openOk {
          return ResourceUnavail, [];
        }
      }
      var data := new Byte[3];
      data[0], data[1], data[2] := DACCMD_REF_MODE, 0, 1;
      assert data[..] == [DACCMD_REF_MODE, 0, 1];
      sent := [data[..]];
      result := Transfer(device, address, spiOpen[device], outcome);
    }
  }
}
