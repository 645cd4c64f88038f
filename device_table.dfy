// The per-address device table that every board library keeps
// (_devices[MAX_NUMBER_HATS] in lib/mcc118.c, mcc128.c, mcc134.c, mcc152.c
// and mcc172.c): an entry is allocated by the first open of an address,
// shared by later opens through a reference count, and freed when the
// count returns to zero.
//
// The EEPROM lookup, the SPI device open, the board-specific
// initialisation and the CMD_ID exchange are outcomes passed in.

module DeviceTable {
  import opened DaqHats

  datatype Board = Hat118 | Hat128 | Hat134 | Hat152 | Hat172

  function ProductId(b: Board): int
  {
    match b
    case Hat118 => HAT_ID_MCC_118
    case Hat128 => HAT_ID_MCC_128
    case Hat134 => HAT_ID_MCC_134
    case Hat152 => HAT_ID_MCC_152
    case Hat172 => HAT_ID_MCC_172
  }

  /** The product IDs the CMD_ID reply may carry (the MCC 118 also accepts its bootloader). */
  predicate IdAccepted(b: Board, id: int)
  {
    id == ProductId(b) || (b == Hat118 && id == HAT_ID_MCC_118_BOOTLOADER)
  }

  /** The boards whose open checks the microcontroller with CMD_ID. */
  predicate HasIdCheck(b: Board)
  {
    b == Hat118 || b == Hat128 || b == Hat172
  }

  /** What _hat_info reports for an address: product ID, EEPROM version, custom data size. */
  datatype HatRecord = HatRecord(id: int, version: int, customSize: nat)

  datatype IdReply = IdReply(result: ResultCode, productId: int)

  /**
   * The outcomes open depends on: the EEPROM record (None when there is
   * none), opening the SPI device, the board initialisation (MCC 134: ADC;
   * MCC 152: DAC, then DIO), creating the MCC 134 thread, and the two
   * CMD_ID attempts.
   */
  datatype OpenInputs = OpenInputs(hatInfo: Option<HatRecord>, spiOpenOk: bool,
                                   initResult: ResultCode, dioInitResult: ResultCode,
                                   threadOk: bool, idReplies: seq<IdReply>)

  /** One entry after open: the result, the reference count (0 = freed) and the SPI device. */
  datatype OpenStep = OpenStep(result: ResultCode, count: nat, spiDevice: nat)

  /**
   * The CMD_ID exchange after the count was raised to `raised`: up to two
   * attempts.  A reply with a foreign ID, and on the MCC 128 and MCC 172
   * two failed attempts, release the entry: as written the entry is freed
   * outright, otherwise only this open's reference is dropped.  On the
   * MCC 118 two failed attempts still report SUCCESS.
   */
  function IdCheck(b: Board, raised: nat, spiDevice: nat, replies: seq<IdReply>, asWritten: bool): (r: OpenStep)
    requires |replies| == 2 && raised > 0
    ensures r.result == Success ==> r.count == raised
    ensures r.result != Success ==> r.count == (if asWritten then 0 else raised - 1)
  {
    var released := if asWritten then 0 else raised - 1;
    if replies[0].result == Success then
      (if IdAccepted(b, replies[0].productId) then OpenStep(Success, raised, spiDevice)
       else OpenStep(InvalidDevice, released, spiDevice))
    else if replies[1].result == Success then
      (if IdAccepted(b, replies[1].productId) then OpenStep(Success, raised, spiDevice)
       else OpenStep(InvalidDevice, released, spiDevice))
    else if b == Hat118 then OpenStep(Success, raised, spiDevice)
    else OpenStep(replies[1].result, released, spiDevice)
  }

  /** open for one valid address whose entry has reference count `count`. */
  function OpenEntryWith(b: Board, count: nat, spiDevice: nat, inputs: OpenInputs, asWritten: bool): (r: OpenStep)
    requires |inputs.idReplies| == 2
  {
    if count > 0 then
      (if HasIdCheck(b) then IdCheck(b, count + 1, spiDevice, inputs.idReplies, asWritten)
       else OpenStep(Success, count + 1, spiDevice))
    else if inputs.hatInfo.Some? && inputs.hatInfo.value.id != ProductId(b) then
      OpenStep(InvalidDevice, 0, spiDevice)
    else
      var custom := inputs.hatInfo.Some? && inputs.hatInfo.value.customSize > 0;
      var versionOne := custom && inputs.hatInfo.value.version == 1;
      match b
      case Hat134 =>
        if inputs.initResult != Success then OpenStep(inputs.initResult, 0, spiDevice)
        else if !inputs.threadOk then OpenStep(ResourceUnavail, 1, spiDevice)
        else OpenStep(Success, 1, spiDevice)
      case Hat152 =>
        var device := if versionOne then 1 else 0;
        if inputs.initResult != Success then OpenStep(inputs.initResult, 0, device)
        else if inputs.dioInitResult != Success then OpenStep(inputs.dioInitResult, 0, device)
        else OpenStep(Success, 1, device)
      case _ =>
        if b == Hat172 && versionOne then OpenStep(InvalidDevice, 0, spiDevice)
        else if !inputs.spiOpenOk then OpenStep(ResourceUnavail, 0, spiDevice)
        else IdCheck(b, 1, spiDevice, inputs.idReplies, asWritten)
  }

  /**
   * open as the model takes it: a failed open gives back only its own
   * reference.  A successful open adds exactly one reference; a failed
   * one leaves the count as it was, except that an MCC 134 whose
   * thread could not be created stays allocated with one reference.
   */
  function OpenEntry(b: Board, count: nat, spiDevice: nat, inputs: OpenInputs): (r: OpenStep)
    requires |inputs.idReplies| == 2
    ensures r.result == Success ==> r.count == count + 1
    ensures r.result != Success ==>
      r.count == count || (b == Hat134 && count == 0 && r.result == ResourceUnavail && r.count == 1)
    ensures count > 0 ==> r.spiDevice == spiDevice
    ensures count > 0 && !HasIdCheck(b) ==> r == OpenStep(Success, count + 1, spiDevice)
    ensures count == 0 && inputs.hatInfo.Some? && inputs.hatInfo.value.id != ProductId(b) ==>
      r == OpenStep(InvalidDevice, 0, spiDevice)
    ensures b == Hat152 && count == 0 && r.result == Success ==>
      r.spiDevice == (if inputs.hatInfo.Some? && inputs.hatInfo.value.customSize > 0 &&
                         inputs.hatInfo.value.version == 1 then 1 else 0)
    ensures (b == Hat172 && count == 0 && inputs.hatInfo.Some? && inputs.hatInfo.value.customSize > 0 &&
             inputs.hatInfo.value.version == 1) ==> r.result == InvalidDevice
  {
    OpenEntryWith(b, count, spiDevice, inputs, false)
  }

  /** open as written in the C sources. */
  function OpenEntryAsWritten(b: Board, count: nat, spiDevice: nat, inputs: OpenInputs): (r: OpenStep)
    requires |inputs.idReplies| == 2
    ensures HasIdCheck(b) && r.result == InvalidDevice && inputs.hatInfo.None? ==> r.count == 0
  {
    OpenEntryWith(b, count, spiDevice, inputs, true)
  }

  /**
   * A second open of an MCC 118 whose CMD_ID reply carries a foreign ID
   * frees the entry the first open still holds.
   */
  lemma SharedOpenFreesEntry()
    ensures var inputs := OpenInputs(None, true, Success, Success, true,
                                     [IdReply(Success, HAT_ID_MCC_134), IdReply(Success, HAT_ID_MCC_134)]);
      OpenEntryAsWritten(Hat118, 1, 0, inputs) == OpenStep(InvalidDevice, 0, 0)
  {
  }

  /** The correction only differs where an already-open entry would be freed. */
  lemma OpenCorrectionMinimal(b: Board, count: nat, spiDevice: nat, inputs: OpenInputs)
    requires |inputs.idReplies| == 2
    ensures OpenEntry(b, count, spiDevice, inputs).result == OpenEntryAsWritten(b, count, spiDevice, inputs).result
    ensures count == 0 ==> OpenEntry(b, count, spiDevice, inputs) == OpenEntryAsWritten(b, count, spiDevice, inputs)
  {
  }

  /** close for an open entry: one reference fewer, the entry freed at zero. */
  function CloseEntry(count: nat): (c: nat)
    requires count > 0
    ensures c + 1 == count
  {
    count - 1
  }

  /** A successful open followed by close gives the reference count back. */
  lemma OpenCloseRestores(b: Board, count: nat, spiDevice: nat, inputs: OpenInputs)
    requires |inputs.idReplies| == 2 && OpenEntry(b, count, spiDevice, inputs).result == Success
    ensures CloseEntry(OpenEntry(b, count, spiDevice, inputs).count) == count
  {
  }

  /** _devices[]: the reference count and the SPI device of every address. */
  class HandleTable {
    const board: Board
    var counts: seq<nat>
    var spiDevices: seq<nat>

    ghost predicate Valid()
      reads this
    {
      |counts| == MAX_NUMBER_HATS && |spiDevices| == MAX_NUMBER_HATS
    }

    /** The library starts with no device allocated. */
    constructor (board: Board)
      ensures Valid() && this.board == board
      ensures forall a :: 0 <= a < MAX_NUMBER_HATS ==> counts[a] == 0 && spiDevices[a] == 0
    {
      this.board := board;
      counts := seq(MAX_NUMBER_HATS, _ => 0);
      spiDevices := seq(MAX_NUMBER_HATS, _ => 0);
    }

    /** _check_addr: a valid address with an allocated entry. */
    predicate CheckAddr(address: int)
      requires Valid()
      reads this
    {
      0 <= address < MAX_NUMBER_HATS && counts[address] > 0
    }

    /** is_open. */
    method IsOpen(address: int) returns (open: bool)
      requires Valid()
      ensures open <==> 0 <= address < MAX_NUMBER_HATS && counts[address] > 0
    {
      open := 0 <= address < MAX_NUMBER_HATS && counts[address] != 0;
    }

    /**
     * open: BAD_PARAMETER for an address of 8 or more; otherwise the
     * entry of that address changes as OpenEntry says and no other entry
     * changes.
     */
    method Open(address: int, inputs: OpenInputs) returns (result: ResultCode)
      requires Valid() && |inputs.idReplies| == 2
      modifies this
      ensures Valid()
      ensures !(0 <= address < MAX_NUMBER_HATS) ==>
        result == BadParameter && counts == old(counts) && spiDevices == old(spiDevices)
      ensures 0 <= address < MAX_NUMBER_HATS ==>
        var step := OpenEntry(board, old(counts[address]), old(spiDevices[address]), inputs);
        result == step.result &&
        counts == old(counts)[address := step.count] &&
        spiDevices == old(spiDevices)[address := step.spiDevice]
    {
      if !(0 <= address < MAX_NUMBER_HATS) {
        return BadParameter;
      }
      var before := counts[address];
      if before == 0 {
        if inputs.hatInfo.Some? && inputs.hatInfo.value.id != ProductId(board) {
          return InvalidDevice;
        }
        var custom := inputs.hatInfo.Some? && inputs.hatInfo.value.customSize > 0;
        var versionOne := custom && inputs.hatInfo.value.version == 1;
        if board == Hat134 {
          counts := counts[address := 1];
          if inputs.initResult != Success {
            counts := counts[address := 0];
            return inputs.initResult;
          }
          if !inputs.threadOk {
            return ResourceUnavail;
          }
          return Success;
        }
        if board == Hat152 {
          counts := counts[address := 1];
          spiDevices := spiDevices[address := if versionOne then 1 else 0];
          if inputs.initResult != Success {
            counts := counts[address := 0];
            return inputs.initResult;
          }
          if inputs.dioInitResult != Success {
            counts := counts[address := 0];
            return inputs.dioInitResult;
          }
          return Success;
        }
        if board == Hat172 && versionOne {
          return InvalidDevice;
        }
        if !inputs.spiOpenOk {
          return ResourceUnavail;
        }
        counts := counts[address := 1];
      } else {
        counts := counts[address := before + 1];
        if !HasIdCheck(board) {
          return Success;
        }
      }
      // Two CMD_ID attempts; a failed open gives back its own reference.
      var attempts := 0;
      result := CommsFailure;
      while attempts < 2
        invariant 0 <= attempts <= 2 && Valid()
        invariant counts == old(counts)[address := before + 1] && spiDevices == old(spiDevices)
        invariant attempts > 0 ==> result == inputs.idReplies[attempts - 1].result
        invariant forall k :: 0 <= k < attempts ==> inputs.idReplies[k].result != Success
        decreases 2 - attempts
      {
        var reply := inputs.idReplies[attempts];
        result := reply.result;
        if result == Success {
          if IdAccepted(board, reply.productId) {
            return Success;
          }
          counts := counts[address := before];
          return InvalidDevice;
        }
        attempts := attempts + 1;
      }
      if board == Hat118 {
        return Success;
      }
      counts := counts[address := before];
    }

    /** close: BAD_PARAMETER unless the entry is allocated; otherwise one reference fewer. */
    method Close(address: int) returns (result: ResultCode)
      requires Valid()
      modifies this
      ensures Valid() && spiDevices == old(spiDevices)
      ensures !old(CheckAddr(address)) ==> result == BadParameter && counts == old(counts)
      ensures old(CheckAddr(address)) ==>
        result == Success && counts == old(counts)[address := CloseEntry(old(counts[address]))]
    {
      if !CheckAddr(address) {
        return BadParameter;
      }
      counts := counts[address := counts[address] - 1];
      return Success;
    }
  }
}
