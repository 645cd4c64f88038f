// The MCC 128 firmware updater (tools/mcc128_firmware_update.c): the
// cursor over the frame file, the bootloader's status dispatch which
// sends the unlock command and the frames in turn, and main's argument
// and device-check rules.
//
// The frame file is a byte sequence already read into memory.  Each pass
// of the status loop is given its outcome as a Poll: whether the
// bootloader raised NCHG before the wait ran out, and the bytes the
// status read returned.  The transfers the updater makes are returned.

module Mcc128Firmware {
  import opened DaqHats

  /** Bytes 2 to 5 of every frame. */
  const SIGNATURE: seq<Byte> := [0x13, 0x02, 0xFD, 0x67]

  /** The bootloader IDs the first status read accepts. */
  const BOOTLOADER_ID_A: Byte := 0x25
  const BOOTLOADER_ID_B: Byte := 0xC6

  /** The number of device checks main makes after an update. */
  const CHECK_ATTEMPTS: nat := 5

  // ---------------------------------------------------------------------
  // The frame file

  /** What get_next_frame reports: the end of the file, a bad signature, or the frame at start. */
  datatype FrameResult = EndOfFile | InvalidSignature | NextFrame(start: nat, length: nat)

  /**
   * get_next_frame as written: the signature and the length are read at
   * the index even when fewer than six bytes of the file remain, and a
   * frame may run past the end.  memory is the file (its first size
   * bytes) followed by whatever lies behind it.
   */
  function NextFrameAsWritten(memory: seq<Byte>, size: nat, index: nat): (r: FrameResult)
    requires size <= |memory| && (index < size ==> index + 6 <= |memory|)
    ensures r == EndOfFile <==> index >= size
    ensures r.NextFrame? ==> r.start == index && r.length == (memory[index] as int) * 256 + memory[index + 1] + 2
  {
    if index >= size then EndOfFile
    else if memory[index + 2..index + 6] != SIGNATURE then InvalidSignature
    else NextFrame(index, (memory[index] as int) * 256 + memory[index + 1] + 2)
  }

  /**
   * get_next_frame: at or past the end of the file there is no frame;
   * otherwise the frame at the index is its big-endian length word and
   * that many bytes more, and it must carry the signature and lie inside
   * the file.
   */
  function NextFrameAt(file: seq<Byte>, index: nat): (r: FrameResult)
    ensures r == EndOfFile <==> index >= |file|
    ensures r.NextFrame? ==>
      r.start == index && index + 6 <= |file| && file[index + 2..index + 6] == SIGNATURE &&
      r.length == (file[index] as int) * 256 + file[index + 1] + 2 && index + r.length <= |file|
  {
    if index >= |file| then EndOfFile
    else if index + 6 > |file| || file[index + 2..index + 6] != SIGNATURE then InvalidSignature
    else
      var length := (file[index] as int) * 256 + file[index + 1] + 2;
      if index + length > |file| then InvalidSignature else NextFrame(index, length)
  }

  /** A frame as the file stores it: the body's length, high byte first, then the body. */
  function FrameBytes(body: seq<Byte>): (f: seq<Byte>)
    requires |body| < 0x1_0000
    ensures |f| == |body| + 2
  {
    [|body| / 256, |body| % 256] + body
  }

  /** A frame body starts with the signature. */
  predicate Signed(body: seq<Byte>)
  {
    |body| >= 4 && body[..4] == SIGNATURE
  }

  /** A signed frame stored anywhere in the file is read back whole, at its own offset. */
  lemma FrameReadBack(before: seq<Byte>, body: seq<Byte>, after: seq<Byte>)
    requires |body| < 0x1_0000 && Signed(body)
    ensures NextFrameAt(before + FrameBytes(body) + after, |before|) == NextFrame(|before|, |body| + 2)
  {
    var file := before + FrameBytes(body) + after;
    var i := |before|;
    assert file[i] == |body| / 256 && file[i + 1] == |body| % 256;
    assert file[i + 2..i + 6] == body[..4];
    DivUnique(|body|, 256, |body| / 256, |body| % 256);
  }

  /** Where a frame fits inside the file, the source's reading and the corrected one agree. */
  lemma AsWrittenAgreesInside(memory: seq<Byte>, size: nat, index: nat)
    requires size <= |memory| && index + 6 <= size
    requires index + (memory[index] as int) * 256 + memory[index + 1] + 2 <= size
    ensures NextFrameAsWritten(memory, size, index) == NextFrameAt(memory[..size], index)
  {
    assert memory[..size][index + 2..index + 6] == memory[index + 2..index + 6];
  }

  /** A one-byte file passes the signature test on the memory behind it and yields a six-byte frame. */
  lemma HeaderReadPastEndAsWritten()
    ensures NextFrameAsWritten([0x00, 0x04, 0x13, 0x02, 0xFD, 0x67], 1, 0) == NextFrame(0, 6)
    ensures NextFrameAt([0x00], 0) == InvalidSignature
  {
    var m: seq<Byte> := [0x00, 0x04, 0x13, 0x02, 0xFD, 0x67];
    assert m[2..6] == SIGNATURE;
  }

  /** frame_file_buffer, frame_file_size and frame_file_index. */
  class FrameCursor {
    const file: seq<Byte>
    var index: nat

    /** update_firmware sets frame_file_index to 0 before the first frame. */
    constructor (file: seq<Byte>)
      ensures this.file == file && index == 0
    {
      this.file := file;
      index := 0;
    }

    /**
     * get_next_frame: returns 0 at the end of the file and -1 on a bad
     * frame, leaving the index; otherwise returns the frame's length,
     * moves the index past it, and reports whether it was the last one.
     */
    method GetNextFrame() returns (length: int, start: nat, lastFrame: Option<bool>)
      modifies this`index
      ensures var r := NextFrameAt(file, old(index));
        (r.EndOfFile? ==> length == 0 && index == old(index) && lastFrame.None?) &&
        (r.InvalidSignature? ==> length == -1 && index == old(index) && lastFrame.None?) &&
        (r.NextFrame? ==> length == r.length && start == r.start && index == old(index) + r.length &&
                          lastFrame == Some(index >= |file|))
    {
      start := index;
      lastFrame := None;
      if index >= |file| {
        return 0, start, lastFrame;
      }
      if index + 6 > |file| || file[index + 2] != 0x13 || file[index + 3] != 0x02 ||
         file[index + 4] != 0xFD || file[index + 5] != 0x67 {
        assert index + 6 <= |file| ==> file[index + 2..index + 6] != SIGNATURE;
        return -1, start, lastFrame;
      }
      assert file[index + 2..index + 6] == SIGNATURE;
      var len := file[index + 1] + (file[index] as int) * 256;
      if index + len + 2 > |file| {
        return -1, start, lastFrame;
      }
      index := index + len + 2;
      lastFrame := Some(index >= |file|);
      length := len + 2;
    }
  }

  // ---------------------------------------------------------------------
  // The status loop

  /** The loop's flags and the frame index. */
  datatype Session = Session(finished: bool, error: bool, firstRead: bool, lastFrame: bool, index: nat)

  /** One pass's outcome: NCHG seen in time, then the status byte and, on the first read, the ID byte. */
  datatype Poll = Poll(ready: bool, status: Byte, id: Byte)

  /** The transfers the updater makes: a status read, the unlock command, or one frame of the file. */
  datatype Transfer = ReadStatus(length: nat) | Unlock | SendFrame(start: nat, length: nat)

  datatype Outcome = Outcome(session: Session, sent: seq<Transfer>)

  /** The flags update_firmware starts the loop with; last_frame holds false until the first frame. */
  function Start(index: nat): (s: Session)
    ensures !s.finished && !s.error && s.firstRead && !s.lastFrame
  {
    Session(false, false, true, false, index)
  }

  /** As written, last_frame is uninitialised: the loop starts with whatever it holds. */
  function StartAsWritten(index: nat, garbage: bool): (s: Session)
    ensures s.lastFrame == garbage
  {
    Session(false, false, true, garbage, index)
  }

  /** The status byte's state, its top two bits: 3 waits for the unlock, 2 for frame data, 1 reports an application CRC failure. */
  function StatusClass(status: Byte): (c: nat)
    ensures c < 4 && c * 64 <= status < c * 64 + 64
  {
    status / 64
  }

  /**
   * One pass of the update loop.  Without NCHG the loop finishes.  The
   * status is read (three bytes the first time, when the ID must be
   * 0x25 or 0xC6); waiting for the unlock or a failed application CRC
   * sends the unlock command; waiting for data sends the next frame,
   * finishes at the end of the file and fails on a bad frame; of the
   * other states, FRAME_CRC_FAIL and unknown codes fail, FRAME_CRC_PASS
   * finishes after the last frame, and FRAME_CRC_CHECK and
   * ERROR_DETECTED change nothing.
   */
  function Step(file: seq<Byte>, s: Session, p: Poll): (o: Outcome)
    ensures !p.ready ==> o == Outcome(s.(finished := true), [])
    ensures p.ready ==> |o.sent| >= 1 && o.sent[0] == ReadStatus(if s.firstRead then 3 else 1)
    ensures p.ready ==> !o.session.firstRead
    ensures p.ready && s.firstRead && p.id != BOOTLOADER_ID_A && p.id != BOOTLOADER_ID_B ==> o.session.error
    ensures !s.error && o.session.error ==>
      (p.ready &&
       ((s.firstRead && p.id != BOOTLOADER_ID_A && p.id != BOOTLOADER_ID_B) ||
        (StatusClass(p.status) == 2 && NextFrameAt(file, s.index).InvalidSignature?) ||
        (StatusClass(p.status) == 0 && p.status !in {0x02, 0x04, 0x06})))
    ensures p.ready && (StatusClass(p.status) == 3 || StatusClass(p.status) == 1) ==>
      o.sent == [o.sent[0], Unlock]
    ensures o.session.index != s.index ==>
      (p.ready && StatusClass(p.status) == 2 && NextFrameAt(file, s.index).NextFrame? &&
       o.session.index == s.index + NextFrameAt(file, s.index).length)
    ensures o.session.finished ==>
      (s.finished || !p.ready ||
       (StatusClass(p.status) == 2 && NextFrameAt(file, s.index).EndOfFile?) ||
       (p.status == 0x04 && s.lastFrame))
  {
    if !p.ready then Outcome(s.(finished := true), [])
    else
      var read := [ReadStatus(if s.firstRead then 3 else 1)];
      var s1 := if s.firstRead then
          s.(error := s.error || (p.id != BOOTLOADER_ID_A && p.id != BOOTLOADER_ID_B), firstRead := false)
        else s;
      var c := StatusClass(p.status);
      if c == 3 || c == 1 then Outcome(s1, read + [Unlock])
      else if c == 2 then
        match NextFrameAt(file, s1.index)
        case InvalidSignature => Outcome(s1.(error := true), read)
        case EndOfFile => Outcome(s1.(finished := true), read)
        case NextFrame(start, length) =>
          Outcome(s1.(index := start + length, lastFrame := start + length >= |file|), read + [SendFrame(start, length)])
      else if p.status == 0x03 then Outcome(s1.(error := true), read)
      else if p.status == 0x04 then Outcome(if s1.lastFrame then s1.(finished := true) else s1, read)
      else if p.status == 0x02 || p.status == 0x06 then Outcome(s1, read)
      else Outcome(s1.(error := true), read)
  }

  /** The loop over the polls: it runs while neither finished nor failed, and counts the passes made. */
  function Run(file: seq<Byte>, s: Session, polls: seq<Poll>): (r: (Outcome, nat))
    ensures r.1 <= |polls|
    ensures r.1 < |polls| ==> r.0.session.finished || r.0.session.error
    decreases |polls|
  {
    if s.finished || s.error || |polls| == 0 then (Outcome(s, []), 0)
    else
      var o := Step(file, s, polls[0]);
      var r := Run(file, o.session, polls[1..]);
      (Outcome(r.0.session, o.sent + r.0.sent), r.1 + 1)
  }

  /**
   * The dispatch of one pass of update_firmware's loop, on the flags and
   * the cursor; the transfers it makes are returned.
   */
  method Dispatch(cursor: FrameCursor, finished: bool, error: bool, firstRead: bool, lastFrame: bool, p: Poll)
    returns (finished': bool, error': bool, firstRead': bool, lastFrame': bool, sent: seq<Transfer>)
    modifies cursor
    ensures Outcome(Session(finished', error', firstRead', lastFrame', cursor.index), sent) ==
      Step(cursor.file, Session(finished, error, firstRead, lastFrame, old(cursor.index)), p)
  {
    finished', error', firstRead', lastFrame' := finished, error, firstRead, lastFrame;
    sent := [];
    if !p.ready {
      finished' := true;
      return;
    }
    sent := [ReadStatus(if firstRead then 3 else 1)];
    if firstRead {
      if p.id != BOOTLOADER_ID_A && p.id != BOOTLOADER_ID_B {
        error' := true;
      }
      firstRead' := false;
    }
    var c := StatusClass(p.status);
    if c == 3 || c == 1 {
      sent := sent + [Unlock];
    } else if c == 2 {
      var length, start, last := cursor.GetNextFrame();
      if length == -1 {
        error' := true;
      } else if length == 0 {
        finished' := true;
      } else {
        sent := sent + [SendFrame(start, length)];
        lastFrame' := last.value;
      }
    } else if p.status == 0x02 {
    } else if p.status == 0x03 {
      error' := true;
    } else if p.status == 0x04 {
      if lastFrame' {
        finished' := true;
      }
    } else if p.status == 0x06 {
    } else {
      error' := true;
    }
  }

  /**
   * update_firmware's loop from the given flags: passes are made while
   * neither finished nor error is set and polls remain; the result is
   * what Run computes, and `used` counts the passes.
   */
  method StatusLoop(cursor: FrameCursor, polls: seq<Poll>, lastFrame0: bool)
    returns (finished: bool, error: bool, sent: seq<Transfer>, used: nat)
    modifies cursor
    ensures var r := Run(cursor.file, StartAsWritten(old(cursor.index), lastFrame0), polls);
      r.0 == Outcome(Session(finished, error, r.0.session.firstRead, r.0.session.lastFrame, cursor.index), sent) &&
      r.1 == used
  {
    ghost var file := cursor.file;
    ghost var s0 := StartAsWritten(cursor.index, lastFrame0);
    finished, error := false, false;
    var firstRead, lastFrame := true, lastFrame0;
    sent := [];
    used := 0;
    assert polls[0..] == polls;
    assert Session(finished, error, firstRead, lastFrame, cursor.index) == s0;
    assert [] + Run(file, s0, polls).0.sent == Run(file, s0, polls).0.sent;
    while !finished && !error && used < |polls|
      invariant used <= |polls| && cursor.file == file
      invariant var cur := Session(finished, error, firstRead, lastFrame, cursor.index);
        var r := Run(file, cur, polls[used..]);
        Run(file, s0, polls) == (Outcome(r.0.session, sent + r.0.sent), used + r.1)
      decreases |polls| - used
    {
      ghost var cur := Session(finished, error, firstRead, lastFrame, cursor.index);
      var more: seq<Transfer>;
      finished, error, firstRead, lastFrame, more := Dispatch(cursor, finished, error, firstRead, lastFrame, polls[used]);
      assert polls[used..][1..] == polls[used + 1..];
      RunUnfold(file, cur, polls[used..]);
      ghost var rest := Run(file, Session(finished, error, firstRead, lastFrame, cursor.index), polls[used + 1..]);
      assert sent + (more + rest.0.sent) == (sent + more) + rest.0.sent;
      sent := sent + more;
      used := used + 1;
    }
    assert Run(file, Session(finished, error, firstRead, lastFrame, cursor.index), polls[used..]).1 == 0;
  }

  /** Run on a session that goes on is one step followed by the rest. */
  lemma RunUnfold(file: seq<Byte>, s: Session, polls: seq<Poll>)
    requires !s.finished && !s.error && |polls| > 0
    ensures var o := Step(file, s, polls[0]);
      var r := Run(file, o.session, polls[1..]);
      Run(file, s, polls) == (Outcome(r.0.session, o.sent + r.0.sent), r.1 + 1)
  {
  }

  /** update_firmware's result: 1 after an error, 0 otherwise, a timeout included. */
  function UpdateResult(error: bool): (r: int)
    ensures r == 0 || r == 1
    ensures r == 1 <==> error
  {
    if error then 1 else 0
  }

  // ---------------------------------------------------------------------
  // What the loop guarantees

  /** With the corrected cursor, last_frame is set only once the index reached the end of the file. */
  predicate Sound(file: seq<Byte>, s: Session)
  {
    s.index <= |file| && (s.lastFrame ==> s.index == |file|)
  }

  lemma StepSound(file: seq<Byte>, s: Session, p: Poll)
    requires Sound(file, s)
    ensures Sound(file, Step(file, s, p).session)
  {
    StepCases(file, s, p);
  }

  /** The session after a pass: the index and last_frame move together, on a frame sent. */
  lemma StepCases(file: seq<Byte>, s: Session, p: Poll)
    ensures var o := Step(file, s, p); var r := NextFrameAt(file, s.index);
      if p.ready && StatusClass(p.status) == 2 && r.NextFrame? then
        o.session.index == r.start + r.length && o.session.lastFrame == (r.start + r.length >= |file|) &&
        Frames(o.sent) == [SendFrame(r.start, r.length)]
      else
        o.session.index == s.index && o.session.lastFrame == s.lastFrame && Frames(o.sent) == []
  {
    var o := Step(file, s, p);
    var r := NextFrameAt(file, s.index);
    if p.ready {
      var c := StatusClass(p.status);
      if c == 3 || c == 1 {
        assert o.sent == [ReadStatus(if s.firstRead then 3 else 1), Unlock];
        assert Frames(o.sent[1..][1..]) == [] by { assert o.sent[1..][1..] == []; }
        assert Frames(o.sent[1..]) == [];
      } else if c == 2 && r.NextFrame? {
        assert o.sent == [ReadStatus(if s.firstRead then 3 else 1), SendFrame(r.start, r.length)];
        assert Frames(o.sent[1..][1..]) == [] by { assert o.sent[1..][1..] == []; }
        assert Frames(o.sent[1..]) == [SendFrame(r.start, r.length)];
      } else {
        assert o.sent == [ReadStatus(if s.firstRead then 3 else 1)];
        assert o.sent[1..] == [];
      }
    }
  }

  lemma {:induction false} RunSound(file: seq<Byte>, s: Session, polls: seq<Poll>)
    requires Sound(file, s)
    ensures Sound(file, Run(file, s, polls).0.session)
    decreases |polls|
  {
    if !(s.finished || s.error || |polls| == 0) {
      StepSound(file, s, polls[0]);
      RunSound(file, Step(file, s, polls[0]).session, polls[1..]);
    }
  }

  /**
   * A pass that finishes on the bootloader's status, and not on a
   * missing NCHG, has sent the whole file.
   */
  lemma StatusFinishSentAll(file: seq<Byte>, s: Session, p: Poll)
    requires Sound(file, s) && !s.finished && p.ready && Step(file, s, p).session.finished
    ensures Step(file, s, p).session.index == |file|
  {
    StepCases(file, s, p);
  }

  /** The frames among a run's transfers. */
  function Frames(t: seq<Transfer>): (f: seq<Transfer>)
    ensures forall i :: 0 <= i < |f| ==> f[i].SendFrame?
  {
    if |t| == 0 then []
    else (if t[0].SendFrame? then [t[0]] else []) + Frames(t[1..])
  }

  lemma {:induction false} FramesAppend(a: seq<Transfer>, b: seq<Transfer>)
    ensures Frames(a + b) == Frames(a) + Frames(b)
    decreases |a|
  {
    if |a| > 0 {
      assert (a + b)[0] == a[0] && (a + b)[1..] == a[1..] + b;
      FramesAppend(a[1..], b);
    } else {
      assert a + b == b;
    }
  }

  /** The frames f are the file's frames in order, one after the other, from index `from` to index `to`. */
  predicate Chain(file: seq<Byte>, f: seq<Transfer>, from: nat, to: nat)
    decreases |f|
  {
    if |f| == 0 then from == to
    else
      f[0].SendFrame? && NextFrameAt(file, from) == NextFrame(from, f[0].length) &&
      Chain(file, f[1..], from + f[0].length, to)
  }

  lemma {:induction false} ChainAppend(file: seq<Byte>, a: seq<Transfer>, b: seq<Transfer>, from: nat, mid: nat, to: nat)
    requires Chain(file, a, from, mid) && Chain(file, b, mid, to)
    ensures Chain(file, a + b, from, to)
    decreases |a|
  {
    if |a| > 0 {
      assert (a + b)[0] == a[0] && (a + b)[1..] == a[1..] + b;
      ChainAppend(file, a[1..], b, from + a[0].length, mid, to);
    } else {
      assert a + b == b;
    }
  }

  lemma StepChain(file: seq<Byte>, s: Session, p: Poll)
    ensures Chain(file, Frames(Step(file, s, p).sent), s.index, Step(file, s, p).session.index)
  {
    StepCases(file, s, p);
    var o := Step(file, s, p);
    var f := Frames(o.sent);
    if |f| > 0 {
      assert f[1..] == [];
    }
  }

  /**
   * The frames a run sends are the file's frames in order, from the
   * index it started at to the index it ended at: none is skipped, sent
   * twice or cut short.
   */
  lemma {:induction false} RunChain(file: seq<Byte>, s: Session, polls: seq<Poll>)
    ensures var r := Run(file, s, polls); Chain(file, Frames(r.0.sent), s.index, r.0.session.index)
    decreases |polls|
  {
    if !(s.finished || s.error || |polls| == 0) {
      var o := Step(file, s, polls[0]);
      var r := Run(file, o.session, polls[1..]);
      StepChain(file, s, polls[0]);
      RunChain(file, o.session, polls[1..]);
      FramesAppend(o.sent, r.0.sent);
      ChainAppend(file, Frames(o.sent), Frames(r.0.sent), s.index, o.session.index, r.0.session.index);
    }
  }

  /**
   * As written, a FRAME_CRC_PASS status read before any frame was sent
   * finishes the update when the uninitialised last_frame happens to be
   * true: nothing of the file was sent.
   */
  lemma EarlyPassFinishesAsWritten(file: seq<Byte>)
    requires |file| > 0
    ensures var o := Step(file, StartAsWritten(0, true), Poll(true, 0x04, BOOTLOADER_ID_A));
      o.session.finished && !o.session.error && o.session.index == 0 < |file| && Frames(o.sent) == []
    ensures !Step(file, Start(0), Poll(true, 0x04, BOOTLOADER_ID_A)).session.finished
  {
    var o := Step(file, StartAsWritten(0, true), Poll(true, 0x04, BOOTLOADER_ID_A));
    assert o.sent == [ReadStatus(3)];
    assert Frames(o.sent) == [] by { assert o.sent[1..] == []; }
  }

  // ---------------------------------------------------------------------
  // main

  /** The int main stores sscanf's "%u" in: the 32 bits read as two's complement. */
  function AsInt32(u: U32): (i: int)
    ensures -0x8000_0000 <= i < 0x8000_0000
    ensures u < 0x8000_0000 ==> i == u
  {
    if u < 0x8000_0000 then u else u - 0x1_0000_0000
  }

  /**
   * main's argument check as written: two arguments, and an address
   * that "%u" scans and that is not above 7 once stored in an int.
   */
  function AddressAsWritten(argc: int, scanned: Option<U32>): (a: Option<int>)
    ensures a.Some? ==> argc == 3 && scanned.Some? && a.value == AsInt32(scanned.value) && a.value <= 7
  {
    if argc != 3 || scanned.None? || AsInt32(scanned.value) > 7 then None
    else Some(AsInt32(scanned.value))
  }

  /** "-1" (or "4294967295") scans as 0xFFFFFFFF, which the int holds as -1: not above 7. */
  lemma NegativeAddressAcceptedAsWritten()
    ensures AddressAsWritten(3, Some(0xFFFF_FFFF)) == Some(-1)
    ensures Address(3, Some(0xFFFF_FFFF)).None?
  {
  }

  /** main's argument check: two arguments and an address from 0 to 7. */
  function Address(argc: int, scanned: Option<U32>): (a: Option<nat>)
    ensures a.Some? <==> argc == 3 && scanned.Some? && scanned.value < MAX_NUMBER_HATS
    ensures a.Some? ==> a.value == scanned.value
  {
    if argc != 3 || scanned.None? || scanned.value > 7 then None
    else Some(scanned.value)
  }

  /** The corrected check accepts what the source's accepts among the addresses it was meant for. */
  lemma AddressAgreesOnSmall(argc: int, u: U32)
    requires u < 0x8000_0000
    ensures Address(argc, Some(u)).Some? <==> AddressAsWritten(argc, Some(u)).Some?
  {
  }

  /**
   * The attempts main's device check makes as written: retry_count is
   * never incremented, so the loop stops only at the first success; None
   * when no attempt in `outcomes` succeeds and the loop would go on.
   */
  function AttemptsAsWritten(outcomes: seq<bool>): (n: Option<nat>)
    ensures n.Some? ==>
      (1 <= n.value <= |outcomes| && outcomes[n.value - 1] && forall i :: 0 <= i < n.value - 1 ==> !outcomes[i])
    ensures n.None? <==> forall i :: 0 <= i < |outcomes| ==> !outcomes[i]
  {
    if |outcomes| == 0 then None
    else if outcomes[0] then Some(1)
    else
      var rest := AttemptsAsWritten(outcomes[1..]);
      if rest.None? then None else Some(rest.value + 1)
  }

  /** However many attempts fail, the check as written never gives up. */
  lemma RetryNeverGivesUpAsWritten(n: nat)
    ensures AttemptsAsWritten(seq(n, i => false)).None?
  {
  }

  /**
   * main's device check: up to CHECK_ATTEMPTS attempts, each reopening
   * the board and reading its version (`outcomes` says which attempt
   * would succeed); the check succeeds at the first attempt that does.
   */
  method CheckDevice(outcomes: seq<bool>) returns (success: bool, attempts: nat)
    requires |outcomes| >= CHECK_ATTEMPTS
    ensures 1 <= attempts <= CHECK_ATTEMPTS
    ensures success <==> exists i :: 0 <= i < CHECK_ATTEMPTS && outcomes[i]
    ensures success ==> outcomes[attempts - 1] && forall i :: 0 <= i < attempts - 1 ==> !outcomes[i]
    ensures !success ==> attempts == CHECK_ATTEMPTS
  {
    var retryCount := 0;
    success := false;
    attempts := 0;
    while true
      invariant retryCount == attempts < CHECK_ATTEMPTS && !success
      invariant forall i :: 0 <= i < attempts ==> !outcomes[i]
      decreases CHECK_ATTEMPTS - attempts
    {
      if outcomes[attempts] {
        success := true;
      }
      attempts := attempts + 1;
      retryCount := retryCount + 1;
      if !(retryCount < CHECK_ATTEMPTS && !success) {
        break;
      }
    }
  }

  /** main's exit status: 0 only after accepted arguments, an update without error and a successful check. */
  function MainExit(address: Option<nat>, updateResult: int, checkSuccess: bool): (exit: int)
    ensures exit == 0 || exit == 1
    ensures exit == 0 <==> address.Some? && updateResult != 1 && checkSuccess
  {
    if address.None? || updateResult == 1 || !checkSuccess then 1 else 0
  }

  /**
   * The preamble of update_firmware: the file must exist, be non-empty
   * and read whole; the board must open as an MCC 128, or, when the open
   * fails for a reason other than INVALID_DEVICE, open for update; and
   * the key pressed must be 'y' or 'Y'.
   */
  function Proceeds(fileOk: bool, openResult: ResultCode, openForUpdate: ResultCode, key: char): (go: bool)
    ensures go ==> fileOk && (key == 'y' || key == 'Y')
    ensures openResult == InvalidDevice ==> !go
    ensures fileOk && openResult == Success && (key == 'y' || key == 'Y') ==> go
  {
    fileOk &&
    (openResult == Success || (openResult != InvalidDevice && openForUpdate == Success)) &&
    (key == 'y' || key == 'Y')
  }
}
