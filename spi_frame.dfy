// Command/response framing of the SPI protocol spoken by the MCC 118, 128
// and 172 microcontrollers (lib/mcc118.c; lib/mcc128.c and lib/mcc172.c
// carry identical copies).
//
//   TX frame: [0xDB, command, count low, count high] ++ data
//   RX frame: [0xDB, command, status, count low, count high] ++ data

module SpiFrame {
  import opened DaqHats

  const MSG_START: Byte := 0xDB
  const MAX_TX_DATA_SIZE: int := 256
  const MSG_TX_HEADER_SIZE: int := 4
  const MSG_RX_HEADER_SIZE: int := 5

  // Firmware status codes carried in byte 2 of a reply
  const FW_RES_SUCCESS: Byte := 0
  const FW_RES_BAD_PROTOCOL: Byte := 1
  const FW_RES_BAD_PARAMETER: Byte := 2
  const FW_RES_BUSY: Byte := 3
  const FW_RES_NOT_READY: Byte := 4
  const FW_RES_TIMEOUT: Byte := 5
  const FW_RES_OTHER_ERROR: Byte := 6

  // ---------------------------------------------------------------------
  // Transmit frames

  /** The bytes of a command frame carrying `data`. */
  function TxFrame(command: Byte, data: seq<Byte>): (f: seq<Byte>)
    requires |data| <= MAX_TX_DATA_SIZE
    ensures |f| == MSG_TX_HEADER_SIZE + |data|
  {
    [MSG_START, command, |data| % 0x100, |data| / 0x100] + data
  }

  /** Recovers command and payload from a command frame. */
  function ParseTxFrame(f: seq<Byte>): (r: Option<(Byte, seq<Byte>)>)
    ensures r.Some? ==> |r.value.1| <= MAX_TX_DATA_SIZE && TxFrame(r.value.0, r.value.1) == f
  {
    if |f| < MSG_TX_HEADER_SIZE || f[0] != MSG_START then None
    else
      var count := f[2] as int + 0x100 * (f[3] as int);
      if count > MAX_TX_DATA_SIZE || |f| != MSG_TX_HEADER_SIZE + count then None
      else Some((f[1], f[4..]))
  }

  lemma TxFrameRoundTrip(command: Byte, data: seq<Byte>)
    requires |data| <= MAX_TX_DATA_SIZE
    ensures ParseTxFrame(TxFrame(command, data)) == Some((command, data))
  {
    var f := TxFrame(command, data);
    assert f[4..] == data;
  }

  /**
   * _create_frame: writes the frame into `buffer` and returns its length, or
   * returns 0 and writes nothing when the payload is longer than 256 bytes.
   */
  method CreateFrame(buffer: array<Byte>, command: Byte, data: seq<Byte>) returns (n: nat)
    requires |data| < 0x1_0000
    requires |data| <= MAX_TX_DATA_SIZE ==> buffer.Length >= MSG_TX_HEADER_SIZE + |data|
    modifies buffer
    ensures |data| > MAX_TX_DATA_SIZE ==> n == 0 && buffer[..] == old(buffer[..])
    ensures |data| <= MAX_TX_DATA_SIZE ==>
      n == MSG_TX_HEADER_SIZE + |data| &&
      buffer[..n] == TxFrame(command, data) &&
      buffer[n..] == old(buffer[n..])
  {
    if |data| > MAX_TX_DATA_SIZE {
      return 0;
    }
    buffer[0] := MSG_START;
    buffer[1] := command;
    buffer[2] := |data| % 0x100;
    buffer[3] := |data| / 0x100;
    var i := 0;
    while i < |data|
      invariant 0 <= i <= |data|
      invariant buffer[..4] == [MSG_START, command, |data| % 0x100, |data| / 0x100]
      invariant buffer[4..4 + i] == data[..i]
      invariant buffer[4 + |data|..] == old(buffer[4 + |data|..])
    {
      buffer[4 + i] := data[i];
      i := i + 1;
    }
    n := MSG_TX_HEADER_SIZE + |data|;
    assert buffer[..n] == buffer[..4] + buffer[4..n];
  }

  // ---------------------------------------------------------------------
  // Receive frames

  /** The outputs of _parse_buffer. */
  datatype ParseOutcome = ParseOutcome(found: bool, frameStart: nat, frameLength: nat, remaining: nat)

  /** The first index holding the start byte, if any. */
  function FirstStart(b: seq<Byte>): (r: Option<nat>)
    ensures r.Some? ==> (r.value < |b| && b[r.value] == MSG_START &&
      forall i :: 0 <= i < r.value ==> b[i] != MSG_START)
    ensures r.None? ==> forall i :: 0 <= i < |b| ==> b[i] != MSG_START
  {
    if |b| == 0 then None
    else if b[|b| - 1] != MSG_START then FirstStart(b[..|b| - 1])
    else match FirstStart(b[..|b| - 1])
      case Some(s) => Some(s)
      case None => Some(|b| - 1)
  }

  /** The data count announced by the header that starts at s. */
  function HeaderCount(b: seq<Byte>, s: nat): (c: nat)
    requires s + MSG_RX_HEADER_SIZE <= |b|
    ensures c < 0x1_0000
  {
    b[s + 3] as int + 0x100 * (b[s + 4] as int)
  }

  /**
   * What _parse_buffer reports: the first start byte opens the frame, and
   * the frame is complete when the header and all announced data bytes are
   * present.  Otherwise `remaining` tells how many data bytes are missing.
   */
  function ParseSpec(b: seq<Byte>): ParseOutcome
  {
    match FirstStart(b)
    case None => ParseOutcome(false, 0, 0, 0)
    case Some(s) =>
      if |b| < s + MSG_RX_HEADER_SIZE then ParseOutcome(false, s, 0, 0)
      else
        var count := HeaderCount(b, s);
        if |b| >= s + MSG_RX_HEADER_SIZE + count then
          ParseOutcome(true, s, count + MSG_RX_HEADER_SIZE, 0)
        else
          ParseOutcome(false, s, 0, count - (|b| - (s + MSG_RX_HEADER_SIZE)))
  }

  lemma FirstStartPrefix(b: seq<Byte>, i: nat)
    requires i < |b|
    ensures FirstStart(b[..i + 1]) ==
      if FirstStart(b[..i]).Some? then FirstStart(b[..i])
      else if b[i] == MSG_START then Some(i) else None
  {
    assert b[..i + 1][..i] == b[..i];
  }

  lemma FirstStartExtend(b: seq<Byte>, i: nat, s: nat)
    requires s < i <= |b|
    requires FirstStart(b[..s + 1]) == Some(s)
    ensures FirstStart(b[..i]) == Some(s)
    decreases i
  {
    if i > s + 1 {
      FirstStartExtend(b, i - 1, s);
      FirstStartPrefix(b, i - 1);
    }
  }

  lemma FirstStartWhole(b: seq<Byte>, i: nat, s: nat)
    requires s < i <= |b|
    requires FirstStart(b[..s + 1]) == Some(s)
    ensures FirstStart(b) == Some(s)
  {
    FirstStartExtend(b, |b|, s);
    assert b[..|b|] == b;
  }

  /**
   * _parse_buffer: the byte-at-a-time state machine.  States 0..6 are
   * start, command, status, count low, count high, data and complete.
   */
  method ParseBuffer(b: seq<Byte>) returns (r: ParseOutcome)
    requires |b| < 0x1_0000
    ensures r == ParseSpec(b)
  {
    var index := 0;
    var found := false;
    var state: int := 0;
    var remaining: int := 0;
    var frameLength: int := 0;
    var frameStart: int := 0;
    var dataIndex: int := 0;
    var dataCount: int := 0;
    while index < |b| && !found
      invariant 0 <= index <= |b|
      invariant FirstStart(b[..index]).None? ==>
        state == 0 && !found && frameStart == 0 && remaining == 0 && frameLength == 0
      invariant FirstStart(b[..index]).Some? ==>
        var s := FirstStart(b[..index]).value;
        frameStart == s && s < index &&
        (index - s <= 4 ==> state == index - s && dataIndex == 0 && !found && remaining == 0 && frameLength == 0) &&
        (index - s == 4 ==> dataCount == b[s + 3]) &&
        (index - s >= 5 ==>
          dataCount == HeaderCount(b, s) &&
          (dataCount == 0 ==> index - s == 5 && found && remaining == 0 && frameLength == MSG_RX_HEADER_SIZE) &&
          (dataCount > 0 ==>
            index - s <= 5 + dataCount && dataIndex == index - s - 5 &&
            remaining == dataCount - dataIndex &&
            (found <==> dataIndex == dataCount) &&
            (found ==> frameLength == dataCount + MSG_RX_HEADER_SIZE) &&
            (!found ==> state == 5 && frameLength == 0)))
    {
      FirstStartPrefix(b, index);
      if state == 0 {
        if b[index] == MSG_START {
          frameStart := index;
          dataCount := 0;
          dataIndex := 0;
          state := state + 1;
        }
      } else if state == 1 || state == 2 {
        state := state + 1;
      } else if state == 3 {
        dataCount := b[index];
        state := state + 1;
      } else if state == 4 {
        dataCount := dataCount + 0x100 * (b[index] as int);
        if dataCount == 0 {
          remaining := 0;
          found := true;
          frameLength := MSG_RX_HEADER_SIZE;
          state := 6;
        } else {
          remaining := dataCount;
          state := state + 1;
        }
      } else if state == 5 {
        remaining := remaining - 1;
        dataIndex := dataIndex + 1;
        if dataIndex >= dataCount {
          state := state + 1;
          found := true;
          frameLength := dataCount + MSG_RX_HEADER_SIZE;
        }
      }
      index := index + 1;
    }
    r := ParseOutcome(found, frameStart, frameLength, remaining);
    if FirstStart(b[..index]).Some? {
      var s := FirstStart(b[..index]).value;
      FirstStartWhole(b, index, s) by {
        FirstStartPrefix(b, s);
        assert b[..s][..s] == b[..s];
        SomeStartPrefix(b, index, s);
      }
    } else {
      assert index == |b|;
      assert b[..index] == b;
    }
  }

  lemma SomeStartPrefix(b: seq<Byte>, i: nat, s: nat)
    requires s < i <= |b|
    requires FirstStart(b[..i]) == Some(s)
    ensures FirstStart(b[..s + 1]) == Some(s)
  {
    var p := b[..s + 1];
    assert p[s] == b[..i][s] == MSG_START;
    forall j | 0 <= j < s ensures p[j] != MSG_START {
      assert p[j] == b[..i][j];
    }
    FirstStartUnique(p, s);
  }

  lemma FirstStartUnique(b: seq<Byte>, s: nat)
    requires s < |b| && b[s] == MSG_START
    requires forall j :: 0 <= j < s ==> b[j] != MSG_START
    ensures FirstStart(b) == Some(s)
  {
    match FirstStart(b)
    case None =>
    case Some(t) =>
      assert !(t < s) && !(s < t);
  }

  /** The bytes of a reply frame with the given command, status and data. */
  function RxFrame(command: Byte, status: Byte, data: seq<Byte>): (f: seq<Byte>)
    requires |data| < 0x1_0000
    ensures |f| == MSG_RX_HEADER_SIZE + |data|
  {
    [MSG_START, command, status, |data| % 0x100, |data| / 0x100] + data
  }

  /**
   * A reply preceded by bytes that are not the start byte is found, however
   * many bytes follow it, and the parser reports where it starts and how
   * long it is.
   */
  lemma {:induction false} ParseFindsReply(junk: seq<Byte>, command: Byte, status: Byte,
                                           data: seq<Byte>, tail: seq<Byte>)
    requires |data| < 0x1_0000
    requires forall i :: 0 <= i < |junk| ==> junk[i] != MSG_START
    ensures ParseSpec(junk + RxFrame(command, status, data) + tail) ==
      ParseOutcome(true, |junk|, |data| + MSG_RX_HEADER_SIZE, 0)
  {
    var b := junk + RxFrame(command, status, data) + tail;
    var s := |junk|;
    assert b[s] == MSG_START;
    forall j | 0 <= j < s ensures b[j] != MSG_START {
      assert b[j] == junk[j];
    }
    FirstStartUnique(b, s);
    assert b[s + 3] == |data| % 0x100 && b[s + 4] == |data| / 0x100;
    assert HeaderCount(b, s) == |data|;
  }

  /** A buffer without a start byte never yields a frame. */
  lemma ParseNeedsStart(b: seq<Byte>)
    requires forall i :: 0 <= i < |b| ==> b[i] != MSG_START
    ensures !ParseSpec(b).found
  {
  }

  /** A found frame lies inside the buffer and is announced by its header. */
  lemma ParseFoundFrame(b: seq<Byte>)
    requires ParseSpec(b).found
    ensures var r := ParseSpec(b);
      r.frameStart + r.frameLength <= |b| && b[r.frameStart] == MSG_START &&
      r.frameLength == HeaderCount(b, r.frameStart) + MSG_RX_HEADER_SIZE && r.remaining == 0
  {
  }

  // ---------------------------------------------------------------------
  // Reply decoding in _spi_transfer

  /**
   * Maps a parsed reply to the library's result code: a command byte that
   * does not echo the command sent is BAD_PARAMETER, and otherwise the
   * firmware status selects the result.  No reply at all is TIMEOUT.  On
   * success the expected number of data bytes is copied from behind the
   * header.
   */
  function DecodeReply(sentCommand: Byte, reply: Option<(seq<Byte>, nat)>, rxCount: nat):
    (r: (ResultCode, seq<Byte>))
    requires reply.Some? ==> reply.value.1 + MSG_RX_HEADER_SIZE + rxCount <= |reply.value.0|
    ensures r.0 != Success ==> r.1 == []
    ensures r.0 == Success ==> |r.1| == rxCount
  {
    match reply
    case None => (Timeout, [])
    case Some((buf, start)) =>
      if buf[start + 1] != sentCommand then (BadParameter, [])
      else
        var status := buf[start + 2];
        if status == FW_RES_SUCCESS then
          (Success, buf[start + MSG_RX_HEADER_SIZE..start + MSG_RX_HEADER_SIZE + rxCount])
        else if status == FW_RES_BAD_PARAMETER then (BadParameter, [])
        else if status == FW_RES_TIMEOUT then (Timeout, [])
        else if status == FW_RES_BUSY then (Busy, [])
        else (Undefined, [])
  }

  /** The firmware status table of the reply decoder, both directions. */
  lemma DecodeReplyTable(sentCommand: Byte, junk: seq<Byte>, command: Byte, status: Byte, data: seq<Byte>)
    requires |data| < 0x1_0000
    requires forall i :: 0 <= i < |junk| ==> junk[i] != MSG_START
    ensures var buf := junk + RxFrame(command, status, data);
      var r := DecodeReply(sentCommand, Some((buf, |junk|)), |data|);
      (r.0 == Success <==> command == sentCommand && status == FW_RES_SUCCESS) &&
      (r.0 == Success ==> r.1 == data) &&
      (command != sentCommand ==> r.0 == BadParameter) &&
      (command == sentCommand ==>
        (status == FW_RES_BAD_PARAMETER <==> r.0 == BadParameter) &&
        (status == FW_RES_TIMEOUT <==> r.0 == Timeout) &&
        (status == FW_RES_BUSY <==> r.0 == Busy) &&
        (status !in {FW_RES_SUCCESS, FW_RES_BAD_PARAMETER, FW_RES_TIMEOUT, FW_RES_BUSY} <==> r.0 == Undefined))
  {
    var buf := junk + RxFrame(command, status, data);
    var s := |junk|;
    assert buf[s + 1] == command && buf[s + 2] == status;
    assert buf[s + MSG_RX_HEADER_SIZE..s + MSG_RX_HEADER_SIZE + |data|] == data;
  }
}
