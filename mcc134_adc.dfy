// The ADC of the MCC 134 (lib/mcc134_adc.c): the guards of its SPI
// transfer, the initialisation sequence with its ID and ready checks, and
// the thermocouple and cold-junction reads that assemble a code from the
// reply bytes.
//
// The SPI driver, the SPI and board locks and the conversion delays are
// outside the model: every transfer's outcome and reply bytes are
// parameters, and the frames handed to the transfer are returned in order.

module Mcc134Adc {
  import opened DaqHats

  const CMD_NOP: Byte := 0x00
  const CMD_RESET: Byte := 0x06
  const CMD_START: Byte := 0x08
  const CMD_RDATA: Byte := 0x12
  const CMD_RREG: Byte := 0x20
  const CMD_WREG: Byte := 0x40
  const REG_ID: Byte := 0x00
  const REG_INPMUX: Byte := 0x02

  /** The PGA settings: gain 32 for a thermocouple, gain 1 for a CJC sensor. */
  const TC_PGA_GAIN_INDEX: Byte := 5
  const CJC_PGA_GAIN_INDEX: Byte := 0
  const DATA_RATE_INDEX: Byte := 4

  /** The low 24 bits of the code of an open thermocouple. */
  const OPEN_TC_CODE: nat := 0x7F_FFFF

  /** The driver's answer to one transfer: its result and, for a read, the bytes clocked in. */
  datatype Reply = Reply(result: ResultCode, rx: seq<Byte>)

  /** The outcomes the SPI driver can report: success, a lock timeout or a failed exchange. */
  predicate DriverOutcomes(replies: seq<Reply>)
  {
    forall i :: 0 <= i < |replies| ==> replies[i].result in {Success, LockTimeout, CommsFailure}
  }

  /**
   * _mcc134_spi_transfer: an invalid address and an SPI device that was
   * never opened are refused before anything is sent; otherwise the
   * outcome is the driver's.
   */
  function Transfer(address: nat, fdOpen: bool, reply: Reply): (r: ResultCode)
    ensures address >= MAX_NUMBER_HATS ==> r == BadParameter
    ensures address < MAX_NUMBER_HATS && !fdOpen ==> r == ResourceUnavail
    ensures address < MAX_NUMBER_HATS && fdOpen ==> r == reply.result
  {
    if address >= MAX_NUMBER_HATS then BadParameter
    else if !fdOpen then ResourceUnavail
    else reply.result
  }

  /** The INPMUX byte (hi << 4) | lo selecting the positive and negative inputs. */
  function MuxByte(hi: nat, lo: nat): (b: Byte)
    requires hi < 16 && lo < 16
    ensures b / 16 == hi && b % 16 == lo
  {
    16 * hi + lo
  }

  /** The thermocouple code: bytes 1 .. 4 of the RDATA reply, most significant first. */
  function TcCode(rx: seq<Byte>): (c: U32)
    requires |rx| == 5
  {
    0x100_0000 * (rx[1] as int) + 0x1_0000 * (rx[2] as int) + 0x100 * (rx[3] as int) + rx[4]
  }

  /** The four reply bytes can be read back from the code. */
  lemma TcCodeBytes(rx: seq<Byte>)
    requires |rx| == 5
    ensures var c := TcCode(rx);
      c / 0x100_0000 == rx[1] && (c / 0x1_0000) % 0x100 == rx[2] &&
      (c / 0x100) % 0x100 == rx[3] && c % 0x100 == rx[4]
  {
    var c := TcCode(rx);
    DivUnique(c, 0x100_0000, rx[1], 0x1_0000 * (rx[2] as int) + 0x100 * (rx[3] as int) + rx[4]);
    DivUnique(c, 0x1_0000, 0x100 * (rx[1] as int) + rx[2], 0x100 * (rx[3] as int) + rx[4]);
    DivUnique(0x100 * (rx[1] as int) + rx[2], 0x100, rx[1], rx[2]);
    DivUnique(c, 0x100, 0x1_0000 * (rx[1] as int) + 0x100 * (rx[2] as int) + rx[3], rx[4]);
    DivUnique(0x1_0000 * (rx[1] as int) + 0x100 * (rx[2] as int) + rx[3], 0x100, 0x100 * (rx[1] as int) + rx[2], rx[3]);
  }

  /** A railed ADC: the low 24 bits of the code are 0x7FFFFF. */
  predicate IsOpenCode(c: nat)
  {
    c % 0x100_0000 == OPEN_TC_CODE
  }

  /** A thermocouple code is open exactly when its three low reply bytes are 7F FF FF. */
  lemma OpenCodeBytes(rx: seq<Byte>)
    requires |rx| == 5
    ensures IsOpenCode(TcCode(rx)) <==> rx[2] == 0x7F && rx[3] == 0xFF && rx[4] == 0xFF
  {
    var low := 0x1_0000 * (rx[2] as int) + 0x100 * (rx[3] as int) + rx[4];
    DivUnique(TcCode(rx), 0x100_0000, rx[1], low);
    DivUnique(low, 0x1_0000, rx[2], 0x100 * (rx[3] as int) + rx[4]);
    DivUnique(0x100 * (rx[3] as int) + rx[4], 0x100, rx[3], rx[4]);
  }

  /** The cold-junction code: bytes 2 .. 4 of the RDATA reply, most significant first. */
  function CjcCode(rx: seq<Byte>): (c: nat)
    requires |rx| == 5
    ensures c < 0x100_0000
    ensures c >= 0x80_0000 <==> rx[2] >= 0x80
  {
    0x1_0000 * (rx[2] as int) + 0x100 * (rx[3] as int) + rx[4]
  }

  /** The frame that selects the inputs and sets the gain before a conversion. */
  function MuxFrame(hi: nat, lo: nat, gainIndex: Byte): (f: seq<Byte>)
    requires hi < 16 && lo < 16 && gainIndex < 8
    ensures |f| == 4 && f[0] == CMD_WREG + REG_INPMUX && f[1] == 1 && f[2] / 16 == hi && f[2] % 16 == lo
    ensures f[3] == 0x08 + gainIndex
  {
    [CMD_WREG + REG_INPMUX, 1, MuxByte(hi, lo), 0x08 + gainIndex]
  }

  const RDATA_FRAME: seq<Byte> := [CMD_RDATA, CMD_NOP, CMD_NOP, CMD_NOP, CMD_NOP]

  /** The frame that parks both inputs on the reference after an open thermocouple. */
  const PARK_FRAME: seq<Byte> := [CMD_WREG + REG_INPMUX, 0, 0x88]

  /**
   * _mcc134_adc_read_tc_code: select the inputs with gain 32, read the
   * conversion, and when the thermocouple is open park the inputs on the
   * reference.  The board lock refuses an invalid address.  The code is
   * returned only on success, and then it is the four reply bytes.
   */
  method ReadTcCode(address: nat, fdOpen: bool, hi: nat, lo: nat, boardLockOk: bool, replies: seq<Reply>)
    returns (result: ResultCode, code: Option<U32>, sent: seq<seq<Byte>>)
    requires hi < 16 && lo < 16 && |replies| == 3 && |replies[1].rx| == 5 && DriverOutcomes(replies)
    ensures code.Some? <==> result == Success
    ensures (address >= MAX_NUMBER_HATS || !boardLockOk) ==> result == LockTimeout && sent == []
    ensures result == Success <==>
      address < MAX_NUMBER_HATS && boardLockOk && fdOpen &&
      replies[0].result == Success && replies[1].result == Success &&
      (IsOpenCode(TcCode(replies[1].rx)) ==> replies[2].result == Success)
    ensures result == Success ==>
      code.value == TcCode(replies[1].rx) &&
      sent == [MuxFrame(hi, lo, TC_PGA_GAIN_INDEX), RDATA_FRAME] +
              (if IsOpenCode(code.value) then [PARK_FRAME] else [])
  {
    code, sent := None, [];
    if address >= MAX_NUMBER_HATS || !boardLockOk {
      return LockTimeout, code, sent;
    }
    var frame := MuxFrame(hi, lo, TC_PGA_GAIN_INDEX);
    sent := sent + [frame];
    result := Transfer(address, fdOpen, replies[0]);
    if result != Success {
      return;
    }
    sent := sent + [RDATA_FRAME];
    result := Transfer(address, fdOpen, replies[1]);
    if result != Success {
      return;
    }
    var rx := replies[1].rx;
    var c := TcCode(rx);
    if c % 0x100_0000 == OPEN_TC_CODE {
      sent := sent + [PARK_FRAME];
      result := Transfer(address, fdOpen, replies[2]);
      if result != Success {
        return;
      }
    }
    code := Some(c);
  }

  /**
   * _mcc134_adc_read_cjc_code: select the sensor with gain 1 and read the
   * conversion.  A code with bit 23 set is reported as UNDEFINED and no
   * code is returned.
   */
  method ReadCjcCode(address: nat, fdOpen: bool, hi: nat, lo: nat, boardLockOk: bool, replies: seq<Reply>)
    returns (result: ResultCode, code: Option<nat>, sent: seq<seq<Byte>>)
    requires hi < 16 && lo < 16 && |replies| == 2 && |replies[1].rx| == 5 && DriverOutcomes(replies)
    ensures code.Some? <==> result == Success
    ensures (address >= MAX_NUMBER_HATS || !boardLockOk) ==> result == LockTimeout && sent == []
    ensures result == Success <==>
      address < MAX_NUMBER_HATS && boardLockOk && fdOpen &&
      replies[0].result == Success && replies[1].result == Success && replies[1].rx[2] < 0x80
    ensures result == Undefined <==>
      address < MAX_NUMBER_HATS && boardLockOk && fdOpen &&
      replies[0].result == Success && replies[1].result == Success && replies[1].rx[2] >= 0x80
    ensures result == Success ==> code.value == CjcCode(replies[1].rx) && code.value < 0x80_0000
    ensures result == Success || result == Undefined ==>
      sent == [MuxFrame(hi, lo, CJC_PGA_GAIN_INDEX), RDATA_FRAME]
  {
    code, sent := None, [];
    if address >= MAX_NUMBER_HATS || !boardLockOk {
      return LockTimeout, code, sent;
    }
    sent := sent + [MuxFrame(hi, lo, CJC_PGA_GAIN_INDEX)];
    result := Transfer(address, fdOpen, replies[0]);
    if result != Success {
      return;
    }
    sent := sent + [RDATA_FRAME];
    result := Transfer(address, fdOpen, replies[1]);
    if result != Success {
      return;
    }
    var c := CjcCode(replies[1].rx);
    if c >= 0x80_0000 {
      return Undefined, code, sent;
    }
    code := Some(c);
  }

  /** The register block written by the initialisation: INPMUX to SYS. */
  const INIT_REGISTERS: seq<Byte> :=
    [CMD_WREG + REG_INPMUX, 8 - 1, 0x88, 0x08 + TC_PGA_GAIN_INDEX, 0x90 + DATA_RATE_INDEX,
     0x3A, 0x80, 0xFF, 0x00, 0x01]

  const ID_FRAME: seq<Byte> := [CMD_RREG + REG_ID, 2 - 1, CMD_NOP, CMD_NOP]

  /** The ADC ID check: the low three bits of the ID register are zero. */
  predicate IdOk(id: Byte)
  {
    id % 8 == 0
  }

  /** The RDY bit (bit 6) of the status register: the ADC is still starting. */
  predicate NotReady(status: Byte)
  {
    Bit(status, 6) == 1
  }

  /**
   * The SPI device that every MCC 134 shares; _mcc134_adc_init opens it
   * the first time it is needed and it stays open.
   */
  class AdcPort {
    var fdOpen: bool

    constructor ()
      ensures !fdOpen
    {
      fdOpen := false;
    }

    /**
     * _mcc134_adc_init: open the SPI device if needed, take the board
     * lock, reset the ADC, check the ID and ready bits, write the
     * registers and start conversions, stopping at the first failure.
     */
    method Init(address: nat, openOk: bool, boardLockOk: bool, replies: seq<Reply>)
      returns (result: ResultCode, sent: seq<seq<Byte>>)
      requires |replies| == 4 && |replies[1].rx| == 4 && DriverOutcomes(replies)
      modifies this
      ensures address >= MAX_NUMBER_HATS ==> result == BadParameter && sent == [] && fdOpen == old(fdOpen)
      ensures address < MAX_NUMBER_HATS ==> fdOpen == (old(fdOpen) || openOk)
      ensures address < MAX_NUMBER_HATS && !fdOpen ==> result == ResourceUnavail && sent == []
      ensures result == Success <==>
        address < MAX_NUMBER_HATS && fdOpen && boardLockOk &&
        replies[0].result == Success && replies[1].result == Success &&
        IdOk(replies[1].rx[2]) && !NotReady(replies[1].rx[3]) &&
        replies[2].result == Success && replies[3].result == Success
      ensures result == InvalidDevice <==>
        address < MAX_NUMBER_HATS && fdOpen && boardLockOk &&
        replies[0].result == Success && replies[1].result == Success && !IdOk(replies[1].rx[2])
      ensures result == Busy <==>
        address < MAX_NUMBER_HATS && fdOpen && boardLockOk &&
        replies[0].result == Success && replies[1].result == Success &&
        IdOk(replies[1].rx[2]) && NotReady(replies[1].rx[3])
      ensures result == Success ==> sent == [[CMD_RESET], ID_FRAME, INIT_REGISTERS, [CMD_START]]
    {
      sent := [];
      if address >= MAX_NUMBER_HATS {
        return BadParameter, sent;
      }
      if !fdOpen {
        fdOpen := openOk;
        if !fdOpen {
          return ResourceUnavail, sent;
        }
      }
      if !boardLockOk {
        return LockTimeout, sent;
      }
      sent := sent + [[CMD_RESET]];
      result := Transfer(address, fdOpen, replies[0]);
      if result != Success {
        return;
      }
      sent := sent + [ID_FRAME];
      result := Transfer(address, fdOpen, replies[1]);
      if result != Success {
        return;
      }
      var id, status := replies[1].rx[2], replies[1].rx[3];
      if id % 8 != 0 {
        return InvalidDevice, sent;
      }
      if (status / 0x40) % 2 != 0 {
        return Busy, sent;
      }
      sent := sent + [INIT_REGISTERS];
      result := Transfer(address, fdOpen, replies[2]);
      if result != Success {
        return;
      }
      sent := sent + [[CMD_START]];
      result := Transfer(address, fdOpen, replies[3]);
    }
  }
}
