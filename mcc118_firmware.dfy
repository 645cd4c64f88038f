// The MCC 118 firmware updater (tools/mcc118_firmware_update.c): Intel HEX
// records of types 00 (data), 02 (extended segment address) and 04
// (extended linear address), the virtual flash image they are loaded into,
// the file check made before anything is sent, and the record filter and
// CRC comparison of the update itself.
//
// The hex file is the sequence of lines fgets returns; the device's
// answers and the key pressed are parameters, and the records handed to
// the bootloader are returned.

module Mcc118Firmware {
  import opened DaqHats
  import opened Mcc118Hex

  // Flash addresses, in bytes (two bytes per program-memory address).
  const USER_START: nat := 0x3000
  const USER_LENGTH: nat := 0x13000
  const FSIGN_ADDR: nat := 0x15E28
  const USER_VERSION_ADDRESS: nat := 0x33F8
  const BOOT_VERSION_ADDRESS: nat := 0x2FF8
  const TOTAL_LENGTH: nat := 0x16000

  /** The size of the byte buffer a line is converted into. */
  const LINE_BUFFER_SIZE: nat := 128

  const U32_RANGE: nat := 0x1_0000_0000

  const DATA_RECORD: Byte := 0x00
  const SEGMENT_RECORD: Byte := 0x02
  const LINEAR_RECORD: Byte := 0x04

  // ---------------------------------------------------------------------
  // Records

  /** A hex record: its type, its 16-bit load offset and its data bytes. */
  datatype Record = Record(recType: Byte, address: U16, data: seq<Byte>)

  /** Extended address records carry a two-byte word; every record's length fits its length byte. */
  predicate WellFormed(r: Record)
  {
    |r.data| < 0x100 &&
    (r.recType == SEGMENT_RECORD || r.recType == LINEAR_RECORD ==> |r.data| >= 2)
  }

  /** The two tests the source applies to a converted line: at least five bytes, and a zero uint8 sum. */
  predicate LineAccepted(bs: seq<Byte>)
  {
    |bs| >= 5 && ByteSum(bs) % 256 == 0
  }

  /** The length byte agrees with the number of bytes on the line. */
  predicate LengthAgrees(bs: seq<Byte>)
    requires |bs| >= 5
  {
    bs[0] as int + 5 == |bs| && (bs[3] == SEGMENT_RECORD || bs[3] == LINEAR_RECORD ==> bs[0] >= 2)
  }

  /**
   * The record a converted line holds: the length byte, the offset high
   * byte first, the type, the data and the checksum.  A line whose length
   * byte disagrees with its length is refused (see Findings).
   */
  function RecordOf(bs: seq<Byte>): (r: Option<Record>)
    ensures r.Some? <==> LineAccepted(bs) && LengthAgrees(bs)
    ensures r.Some? ==> WellFormed(r.value) && |bs| == |r.value.data| + 5
  {
    if LineAccepted(bs) && LengthAgrees(bs) then
      Some(Record(bs[3], (bs[1] as int) * 256 + bs[2], bs[4..4 + bs[0] as int]))
    else
      None
  }

  /** The bytes of a record as a hex line carries them, ending with the checksum. */
  function EncodeRecord(r: Record): (bs: seq<Byte>)
    requires |r.data| < 0x100
    ensures |bs| == |r.data| + 5 && ByteSum(bs) % 256 == 0
  {
    var body := [|r.data|, r.address / 256, r.address % 256, r.recType] + r.data;
    ChecksumCompletes(body, ChecksumByte(body));
    body + [ChecksumByte(body)]
  }

  /** Every well-formed record reads back from its encoding. */
  lemma RecordRoundTrip(r: Record)
    requires WellFormed(r)
    ensures RecordOf(EncodeRecord(r)) == Some(r)
  {
    var bs := EncodeRecord(r);
    assert bs[0] == |r.data| && bs[3] == r.recType;
    assert bs[4..4 + bs[0]] == r.data;
    DivUnique(r.address, 256, r.address / 256, r.address % 256);
  }

  /** Every accepted line is exactly the encoding of the record read from it. */
  lemma RecordDetermined(bs: seq<Byte>)
    requires RecordOf(bs).Some?
    ensures EncodeRecord(RecordOf(bs).value) == bs
  {
    var r := RecordOf(bs).value;
    var n := |bs|;
    var body := [|r.data|, r.address / 256, r.address % 256, r.recType] + r.data;
    DivUnique(r.address, 256, bs[1], bs[2]);
    assert body == bs[..n - 1];
    assert bs == bs[..n - 1] + [bs[n - 1]];
    ChecksumCompletes(body, bs[n - 1]);
  }

  /** The bytes of a line as the 128-byte buffer receives them. */
  function LineBytes(line: string): (bs: seq<Byte>)
    ensures |bs| <= LINE_BUFFER_SIZE
  {
    HexLineBytes(line, LINE_BUFFER_SIZE)
  }

  /** The record a line of the hex file holds, if any. */
  function LineRecord(line: string): Option<Record>
  {
    RecordOf(LineBytes(line))
  }

  /** A record written out as a hex line reads back as that record. */
  lemma LineRoundTrip(r: Record)
    requires WellFormed(r) && |r.data| + 5 <= LINE_BUFFER_SIZE
    ensures LineRecord(EncodeHexLine(EncodeRecord(r))) == Some(r)
  {
    HexLineRoundTrip(EncodeRecord(r), LINE_BUFFER_SIZE);
    RecordRoundTrip(r);
  }

  // ---------------------------------------------------------------------
  // Extended addresses

  /** ext_lin_address and ext_seg_address. */
  datatype Ext = Ext(lin: U32, seg: U32)

  const NO_EXT := Ext(0, 0)

  /** The word an extended address record carries, high byte first. */
  function Word(data: seq<Byte>): (w: U16)
    requires |data| >= 2
    ensures w / 256 == data[0] && w % 256 == data[1]
  {
    DivUnique((data[0] as int) * 256 + data[1], 256, data[0], data[1]);
    (data[0] as int) * 256 + data[1]
  }

  /** Type 02 sets the segment base to word << 4, type 04 the linear base to word << 16. */
  function ExtAfter(e: Ext, r: Record): (e': Ext)
    requires WellFormed(r)
    ensures r.recType == SEGMENT_RECORD ==> e'.lin == e.lin && e'.seg == Word(r.data) * 16
    ensures r.recType == LINEAR_RECORD ==> e'.seg == e.seg && e'.lin == Word(r.data) * 0x1_0000
    ensures r.recType != SEGMENT_RECORD && r.recType != LINEAR_RECORD ==> e' == e
    ensures e'.lin % 0x1_0000 == 0 || e'.lin == e.lin
    ensures e'.seg % 16 == 0 || e'.seg == e.seg
  {
    if r.recType == SEGMENT_RECORD then e.(seg := Word(r.data) * 16)
    else if r.recType == LINEAR_RECORD then e.(lin := Word(r.data) * 0x1_0000)
    else e
  }

  /** The load address of a data record: offset plus both bases, as a uint32 sum. */
  function FullAddress(e: Ext, r: Record): (a: U32)
    ensures r.address + e.lin + e.seg < U32_RANGE ==> a == r.address + e.lin + e.seg
  {
    ToU32(r.address + e.lin + e.seg)
  }

  /** A data record's bytes all lie inside the virtual flash (other records write nothing). */
  predicate Fits(e: Ext, r: Record)
  {
    r.recType == DATA_RECORD ==> FullAddress(e, r) + |r.data| <= TOTAL_LENGTH
  }

  // ---------------------------------------------------------------------
  // verify_hex_file

  /** The check's state: no error yet, the bases, the highest end address and the two version words. */
  datatype Check = Check(ok: bool, ext: Ext, maxEnd: nat, userVersion: U16, bootVersion: U16)

  const CHECK_START := Check(true, NO_EXT, 0, 0, 0)

  /** The little-endian version word at a flash address, when a data record covers both of its bytes. */
  function VersionAt(versionAddress: nat, full: nat, data: seq<Byte>): (v: Option<U16>)
    ensures v.Some? <==> full <= versionAddress && versionAddress + 2 <= full + |data|
    ensures v.Some? ==> v.value % 256 == data[versionAddress - full] &&
                        v.value / 256 == data[versionAddress - full + 1]
  {
    if full <= versionAddress && full + |data| >= versionAddress + 2 then
      var i := versionAddress - full;
      DivUnique(data[i] + (data[i + 1] as int) * 256, 256, data[i + 1], data[i]);
      Some(data[i] + (data[i + 1] as int) * 256)
    else
      None
  }

  function Max(a: nat, b: nat): nat
  {
    if a < b then b else a
  }

  /** One accepted record: data raises the end address and may carry a version; 02 and 04 move the bases. */
  function CheckRecord(c: Check, r: Record): (c': Check)
    requires c.ok && WellFormed(r)
    ensures r.recType == DATA_RECORD ==>
      (c'.ok <==> Max(c.maxEnd, FullAddress(c.ext, r) + |r.data|) < TOTAL_LENGTH)
    ensures r.recType != DATA_RECORD ==> c'.ok && c'.ext == ExtAfter(c.ext, r)
    ensures c'.ok ==> c'.ext == ExtAfter(c.ext, r)
  {
    if r.recType == DATA_RECORD then
      var full := FullAddress(c.ext, r);
      var maxEnd := Max(c.maxEnd, DataEnd(full, |r.data|));
      if maxEnd >= TOTAL_LENGTH then
        c.(ok := false, maxEnd := maxEnd)
      else
        var user := VersionAt(USER_VERSION_ADDRESS, full, r.data);
        var boot := VersionAt(BOOT_VERSION_ADDRESS, full, r.data);
        c.(maxEnd := maxEnd,
           userVersion := if user.Some? then user.value else c.userVersion,
           bootVersion := if boot.Some? then boot.value else c.bootVersion)
    else
      c.(ext := ExtAfter(c.ext, r))
  }

  /** One line: a line that is not an accepted record ends the check with an error. */
  function CheckLine(c: Check, line: string): (c': Check)
    ensures !c.ok ==> c' == c
    ensures c.ok && c'.ok ==> LineRecord(line).Some? && Fits(c.ext, LineRecord(line).value)
  {
    if !c.ok then c
    else match LineRecord(line)
      case None => c.(ok := false)
      case Some(r) => CheckRecord(c, r)
  }

  /** The result of checking the first lines of a file. */
  function Verify(lines: seq<string>): Check
  {
    if |lines| == 0 then CHECK_START
    else CheckLine(Verify(lines[..|lines| - 1]), lines[|lines| - 1])
  }

  /** The check of one more line. */
  lemma VerifySnoc(lines: seq<string>, i: nat)
    requires i < |lines|
    ensures Verify(lines[..i + 1]) == CheckLine(Verify(lines[..i]), lines[i])
  {
    assert lines[..i + 1][..i] == lines[..i];
  }

  /** A failed check stays failed: the lines after the first bad one are not read. */
  lemma {:induction false} VerifyStaysFailed(lines: seq<string>, k: nat)
    requires k <= |lines| && !Verify(lines[..k]).ok
    ensures Verify(lines) == Verify(lines[..k])
    decreases |lines| - k
  {
    if k < |lines| {
      assert lines[..k + 1][..k] == lines[..k];
      VerifyStaysFailed(lines, k + 1);
    } else {
      assert lines[..k] == lines;
    }
  }

  /** A file that passes the check passes it on every prefix. */
  lemma VerifyPrefix(lines: seq<string>, k: nat)
    requires k <= |lines| && Verify(lines).ok
    ensures Verify(lines[..k]).ok
  {
    if !Verify(lines[..k]).ok {
      VerifyStaysFailed(lines, k);
    }
  }

  /**
   * In a file that passes the check, every line is an accepted record and
   * every data record lies inside the virtual flash, with the bases the
   * lines before it set.
   */
  lemma VerifiedLineFits(lines: seq<string>, k: nat)
    requires k < |lines| && Verify(lines).ok
    ensures LineRecord(lines[k]).Some? && Fits(Verify(lines[..k]).ext, LineRecord(lines[k]).value)
  {
    VerifyPrefix(lines, k + 1);
    VerifySnoc(lines, k);
    var c := Verify(lines[..k]);
    assert CheckLine(c, lines[k]).ok;
  }

  // ---------------------------------------------------------------------
  // The end address of a data record (see Findings)

  /** The end of a data record, computed without wrap-around. */
  function DataEnd(full: nat, count: nat): (e: nat)
    ensures e >= full && e - full == count
  {
    full + count
  }

  /** The source's end address: full_address + rec_count stored in a uint32. */
  function DataEndAsWritten(full: U32, count: Byte): (e: U32)
    ensures full + count < U32_RANGE ==> e == DataEnd(full, count)
    ensures full + count >= U32_RANGE ==> e == full + count - U32_RANGE
  {
    ToU32(full + count)
  }

  /**
   * With the linear base 0xFFFF0000, a one-byte record at offset 0xFFFF
   * starts at 0xFFFFFFFF; the end the source computes wraps to 0 and
   * passes the range test, though the byte lies far outside the flash.
   */
  lemma WrappedEndPassesAsWritten()
    ensures var e := Ext(0xFFFF_0000, 0);
            var r := Record(DATA_RECORD, 0xFFFF, [0x00]);
            FullAddress(e, r) == 0xFFFF_FFFF &&
            Max(0, DataEndAsWritten(FullAddress(e, r), |r.data|)) < TOTAL_LENGTH &&
            !Fits(e, r)
  {
  }

  /** The corrected check refuses that record. */
  lemma WrappedEndRefused()
    ensures var r := Record(DATA_RECORD, 0xFFFF, [0x00]);
            !CheckRecord(CHECK_START.(ext := Ext(0xFFFF_0000, 0)), r).ok
  {
  }

  // ---------------------------------------------------------------------
  // The length byte (see Findings)

  /** The data process_hex_line copies as written: rec_count bytes from offset 4 of the whole buffer. */
  function PayloadAsWritten(buffer: seq<Byte>): (p: seq<Byte>)
    requires |buffer| == LINE_BUFFER_SIZE && 4 + buffer[0] as int <= LINE_BUFFER_SIZE
    ensures |p| == buffer[0] && p == buffer[4..4 + buffer[0] as int]
  {
    buffer[4..4 + buffer[0] as int]
  }

  /**
   * The line ":01000000FF" passes both of the source's tests, but it holds
   * no data byte: the byte the source copies into the flash is the checksum.
   */
  lemma ShortRecordCopiesChecksum(buffer: seq<Byte>)
    requires |buffer| == LINE_BUFFER_SIZE
    requires buffer[0] == 0x01 && buffer[1] == 0x00 && buffer[2] == 0x00 && buffer[3] == 0x00 && buffer[4] == 0xFF
    ensures LineBytes(EncodeHexLine(buffer[..5])) == buffer[..5]
    ensures LineAccepted(buffer[..5])
    ensures PayloadAsWritten(buffer) == [buffer[4]] && buffer[4] == ChecksumByte(buffer[..4])
    ensures RecordOf(buffer[..5]).None?
  {
    HexLineRoundTrip(buffer[..5], LINE_BUFFER_SIZE);
    var bs := buffer[..5];
    assert bs == [0x01, 0x00, 0x00, 0x00, 0xFF];
    ShortRecordSums(bs);
    assert bs[..4] == buffer[..4];
  }

  /** The sums of the line ":01000000FF": 1 over the header, 256 over the whole line. */
  lemma ShortRecordSums(bs: seq<Byte>)
    requires bs == [0x01, 0x00, 0x00, 0x00, 0xFF]
    ensures ByteSum(bs[..4]) == 1 && ByteSum(bs) == 256
  {
    assert bs[..1] == [0x01] && ByteSum(bs[..1]) == 1 by { assert bs[..1][..0] == []; }
    assert ByteSum(bs[..2]) == 1 by { assert bs[..2][..1] == bs[..1]; }
    assert ByteSum(bs[..3]) == 1 by { assert bs[..3][..2] == bs[..2]; }
    assert ByteSum(bs[..4]) == 1 by { assert bs[..4][..3] == bs[..3]; }
    assert bs[..4] == bs[..|bs| - 1];
  }

  /**
   * The word a type 02 or 04 record sets as written: buffer[4] and
   * buffer[5] of the 128-byte buffer, whatever the length byte says.
   */
  function ExtWordAsWritten(buffer: seq<Byte>): (w: U16)
    requires |buffer| == LINE_BUFFER_SIZE
    ensures w / 256 == buffer[4] && w % 256 == buffer[5]
  {
    Word(buffer[4..6])
  }

  /**
   * The line ":00000002FE" passes both of the source's tests, but it holds
   * no word: the segment base the source sets is made of the checksum and
   * of whatever byte an earlier line left at buffer[5].
   */
  lemma ShortSegmentRecordReadsChecksum(buffer: seq<Byte>)
    requires |buffer| == LINE_BUFFER_SIZE
    requires buffer[0] == 0x00 && buffer[1] == 0x00 && buffer[2] == 0x00 && buffer[3] == 0x02 && buffer[4] == 0xFE
    ensures LineBytes(EncodeHexLine(buffer[..5])) == buffer[..5]
    ensures LineAccepted(buffer[..5])
    ensures ExtWordAsWritten(buffer) as int == 0xFE00 + buffer[5] as int
    ensures buffer[4] == ChecksumByte(buffer[..4])
    ensures RecordOf(buffer[..5]).None?
  {
    HexLineRoundTrip(buffer[..5], LINE_BUFFER_SIZE);
    var bs := buffer[..5];
    assert bs == [0x00, 0x00, 0x00, 0x02, 0xFE];
    ShortSegmentSums(bs);
    assert bs[..4] == buffer[..4];
  }

  /** The sums of the line ":00000002FE": 2 over the header, 256 over the whole line. */
  lemma ShortSegmentSums(bs: seq<Byte>)
    requires bs == [0x00, 0x00, 0x00, 0x02, 0xFE]
    ensures ByteSum(bs[..4]) == 2 && ByteSum(bs) == 256
  {
    assert bs[..1] == [0x00] && ByteSum(bs[..1]) == 0 by { assert bs[..1][..0] == []; }
    assert ByteSum(bs[..2]) == 0 by { assert bs[..2][..1] == bs[..1]; }
    assert ByteSum(bs[..3]) == 0 by { assert bs[..3][..2] == bs[..2]; }
    assert ByteSum(bs[..4]) == 2 by { assert bs[..4][..3] == bs[..3]; }
    assert bs[..4] == bs[..|bs| - 1];
  }

  // ---------------------------------------------------------------------
  // The virtual flash

  /** The erased contents: 0xFF except the phantom fourth byte of each instruction word. */
  function ErasedByte(i: nat): (b: Byte)
    ensures b == 0 <==> i % 4 == 3
  {
    if (i + 1) % 4 != 0 then 0xFF else 0
  }

  /** The flash after init_virtual_flash: erased, with the reserved FSIGN bit cleared. */
  function InitialFlash(): (f: seq<Byte>)
    ensures |f| == TOTAL_LENGTH
  {
    seq(TOTAL_LENGTH, i requires 0 <= i => ErasedByte(i))[FSIGN_ADDR + 1 := 0x7F]
  }

  /** The FSIGN configuration word reads 0xFF7FFF, with its phantom byte zero. */
  lemma InitialFsignWord()
    ensures InitialFlash()[FSIGN_ADDR..FSIGN_ADDR + 4] == [0xFF, 0x7F, 0xFF, 0x00]
  {
  }

  /** Outside the FSIGN word, the initial image is the erased pattern. */
  lemma InitialFlashErased(i: nat)
    requires i < TOTAL_LENGTH && i != FSIGN_ADDR + 1
    ensures InitialFlash()[i] == (if i % 4 == 3 then 0 else 0xFF)
  {
  }

  /** memcpy of a data record into the flash; other records leave it alone. */
  function Stored(flash: seq<Byte>, e: Ext, r: Record): (f: seq<Byte>)
    ensures |f| == |flash|
    ensures r.recType != DATA_RECORD ==> f == flash
  {
    if r.recType != DATA_RECORD then flash
    else
      var a := FullAddress(e, r);
      seq(|flash|, i requires 0 <= i < |flash| => if a <= i < a + |r.data| then r.data[i - a] else flash[i])
  }

  /** A stored record reads back from the flash, and the bytes around it are unchanged. */
  lemma StoredReadsBack(flash: seq<Byte>, e: Ext, r: Record)
    requires r.recType == DATA_RECORD && FullAddress(e, r) + |r.data| <= |flash|
    ensures var a := FullAddress(e, r);
            var f := Stored(flash, e, r);
            f[a..a + |r.data|] == r.data && f[..a] == flash[..a] && f[a + |r.data|..] == flash[a + |r.data|..]
  {
  }

  class VirtualFlash {
    /** virtual_flash[] */
    const flash: array<Byte>
    /** ext_lin_address and ext_seg_address */
    var ext: Ext

    predicate Valid()
      reads this
    {
      flash.Length == TOTAL_LENGTH
    }

    /** The zero-initialised globals. */
    constructor ()
      ensures Valid() && fresh(flash) && ext == NO_EXT
    {
      flash := new Byte[TOTAL_LENGTH](_ => 0);
      ext := NO_EXT;
    }

    /** init_virtual_flash: both bases cleared and the initial image written. */
    method Init()
      requires Valid()
      modifies this, flash
      ensures Valid() && ext == NO_EXT && flash[..] == InitialFlash()
    {
      for index := 0 to TOTAL_LENGTH
        invariant forall i :: 0 <= i < index ==> flash[i] == ErasedByte(i)
      {
        if (index + 1) % 4 != 0 {
          flash[index] := 0xFF;
        } else {
          flash[index] := 0;
        }
      }
      flash[FSIGN_ADDR + 1] := 0x7F;
      ext := NO_EXT;
      assert forall i :: 0 <= i < TOTAL_LENGTH ==> flash[i] == InitialFlash()[i];
    }

    /**
     * process_hex_line: an accepted record is applied (data is copied into
     * the flash, 02 and 04 set a base) and the number of bytes on the line
     * is returned; any other line gives 0 and changes nothing.
     */
    method ProcessHexLine(line: string, buffer: array<Byte>) returns (count: nat, recType: Byte, address: U32)
      requires Valid() && buffer.Length == LINE_BUFFER_SIZE
      requires LineRecord(line).Some? ==> Fits(ext, LineRecord(line).value)
      modifies this, flash, buffer
      ensures Valid()
      ensures LineRecord(line).None? ==> count == 0 && ext == old(ext) && flash[..] == old(flash[..])
      ensures LineRecord(line).Some? ==>
        var r := LineRecord(line).value;
        count == |LineBytes(line)| && count >= 5 && buffer[..count] == LineBytes(line) &&
        recType == r.recType && (recType == DATA_RECORD ==> address == FullAddress(old(ext), r)) &&
        ext == ExtAfter(old(ext), r) && flash[..] == Stored(old(flash[..]), old(ext), r)
    {
      var record;
      record, count := ReadRecord(line, buffer);
      recType, address := 0, 0;
      if record.None? {
        return;
      }
      var r := record.value;
      recType := r.recType;
      if recType == DATA_RECORD {
        address := FullAddress(ext, r);
        Store(r);
      } else if recType == SEGMENT_RECORD {
        ext := ext.(seg := Word(r.data) * 16);
      } else if recType == LINEAR_RECORD {
        ext := ext.(lin := Word(r.data) * 0x1_0000);
      }
    }

    /** The memcpy of a data record into the flash. */
    method Store(r: Record)
      requires Valid() && r.recType == DATA_RECORD && Fits(ext, r)
      modifies flash
      ensures flash[..] == Stored(old(flash[..]), ext, r)
    {
      var address := FullAddress(ext, r);
      forall i | 0 <= i < |r.data| {
        flash[address + i] := r.data[i];
      }
    }
  }

  /** convert_hex_line into the 128-byte buffer: the line's bytes land at its start. */
  method ConvertLine(line: string, buffer: array<Byte>) returns (count: nat)
    requires buffer.Length == LINE_BUFFER_SIZE
    modifies buffer
    ensures count == |LineBytes(line)| && buffer[..count] == LineBytes(line)
  {
    count := ConvertHexLine(line, buffer, LINE_BUFFER_SIZE);
  }

  /**
   * The conversion and the tests process_hex_line and verify_hex_file both
   * make: the line's bytes, at least five of them, a zero sum, and a length
   * byte that agrees with the line.
   */
  method ReadRecord(line: string, buffer: array<Byte>) returns (record: Option<Record>, count: nat)
    requires buffer.Length == LINE_BUFFER_SIZE
    modifies buffer
    ensures record == LineRecord(line)
    ensures record.None? ==> count == 0
    ensures record.Some? ==> count == |LineBytes(line)| && buffer[..count] == LineBytes(line)
  {
    count := ConvertLine(line, buffer);
    ghost var bs := LineBytes(line);
    if count < 5 {
      return None, 0;
    }
    var checksum := Checksum(buffer, count);
    if checksum != 0 {
      return None, 0;
    }
    RecordOfBuffer(buffer[..], count, bs);
    var recCount := buffer[0];
    var hexAddress := (buffer[1] as int) * 256 + buffer[2];
    var recType := buffer[3];
    if recCount as int + 5 != count || ((recType == SEGMENT_RECORD || recType == LINEAR_RECORD) && recCount < 2) {
      return None, 0;
    }
    record := Some(Record(recType, hexAddress, buffer[4..4 + recCount as int]));
  }

  /** The tests of process_hex_line on the buffer decide the record of the line it holds. */
  lemma RecordOfBuffer(b: seq<Byte>, count: nat, bs: seq<Byte>)
    requires count <= |b| && b[..count] == bs && count >= 5 && ByteSum(bs) % 256 == 0
    ensures RecordOf(bs) ==
      if b[0] as int + 5 != count || ((b[3] == SEGMENT_RECORD || b[3] == LINEAR_RECORD) && b[0] < 2) then None
      else Some(Record(b[3], (b[1] as int) * 256 + b[2], b[4..4 + b[0] as int]))
  {
    BufferHoldsLine(b, count, bs);
  }

  /** A buffer whose first count bytes are a line's bytes holds that line's header and data. */
  lemma BufferHoldsLine(b: seq<Byte>, count: nat, bs: seq<Byte>)
    requires count <= |b| && b[..count] == bs && |bs| >= 5
    ensures b[0] == bs[0] && b[1] == bs[1] && b[2] == bs[2] && b[3] == bs[3]
    ensures bs[0] as int + 5 == count ==> bs[4..4 + bs[0] as int] == b[4..4 + b[0] as int]
  {
    assert b[..count][0] == b[0] && b[..count][1] == b[1] && b[..count][2] == b[2] && b[..count][3] == b[3];
    if bs[0] as int + 5 == count {
      assert b[..count][4..4 + bs[0] as int] == b[4..4 + bs[0] as int];
    }
  }

  /**
   * The data-record branch of verify_hex_file: the highest end address is
   * raised and checked, then the version words the record covers are read.
   */
  method CheckData(ext: Ext, maxEnd: nat, userVersion: U16, bootVersion: U16, r: Record)
    returns (error: bool, maxEnd': nat, userVersion': U16, bootVersion': U16)
    requires WellFormed(r) && r.recType == DATA_RECORD
    ensures Check(!error, ext, maxEnd', userVersion', bootVersion') ==
      CheckRecord(Check(true, ext, maxEnd, userVersion, bootVersion), r)
  {
    var full := FullAddress(ext, r);
    maxEnd', userVersion', bootVersion' := maxEnd, userVersion, bootVersion;
    if full + |r.data| > maxEnd' {
      maxEnd' := full + |r.data|;
    }
    error := maxEnd' >= TOTAL_LENGTH;
    if error {
      return;
    }
    if full <= USER_VERSION_ADDRESS && full + |r.data| >= USER_VERSION_ADDRESS + 2 {
      var index := USER_VERSION_ADDRESS - full;
      userVersion' := r.data[index] + (r.data[index + 1] as int) * 256;
    }
    if full <= BOOT_VERSION_ADDRESS && full + |r.data| >= BOOT_VERSION_ADDRESS + 2 {
      var index := BOOT_VERSION_ADDRESS - full;
      bootVersion' := r.data[index] + (r.data[index + 1] as int) * 256;
    }
  }

  /**
   * verify_hex_file: the lines are checked in order until one fails; the
   * result says whether all passed, with the version words found.
   */
  method VerifyHexFile(lines: seq<string>) returns (ok: bool, userVersion: U16, bootVersion: U16)
    ensures ok == Verify(lines).ok
    ensures userVersion == Verify(lines).userVersion && bootVersion == Verify(lines).bootVersion
  {
    var buffer := new Byte[LINE_BUFFER_SIZE];
    var error := false;
    var ext := NO_EXT;
    var maxEnd: nat := 0;
    userVersion, bootVersion := 0, 0;
    var i := 0;
    while i < |lines| && !error
      invariant 0 <= i <= |lines|
      invariant Check(!error, ext, maxEnd, userVersion, bootVersion) == Verify(lines[..i])
    {
      VerifySnoc(lines, i);
      var record, count := ReadRecord(lines[i], buffer);
      if record.None? {
        error := true;
      } else {
        var r := record.value;
        if r.recType == DATA_RECORD {
          error, maxEnd, userVersion, bootVersion := CheckData(ext, maxEnd, userVersion, bootVersion, r);
        } else if r.recType == SEGMENT_RECORD {
          ext := ext.(seg := Word(r.data) * 16);
        } else if r.recType == LINEAR_RECORD {
          ext := ext.(lin := Word(r.data) * 0x1_0000);
        }
      }
      i := i + 1;
    }
    if error {
      VerifyStaysFailed(lines, i);
    } else {
      assert lines[..i] == lines;
    }
    ok := !error;
  }

  // ---------------------------------------------------------------------
  // update_firmware

  /** The records handed to the bootloader: all but data records outside the user region. */
  predicate Sendable(e: Ext, r: Record)
  {
    r.recType != DATA_RECORD || USER_START <= FullAddress(e, r) < USER_START + USER_LENGTH
  }

  /** The writing pass: the bases, the flash image, the buffers handed to the bootloader, and a failed write. */
  datatype Load = Load(ext: Ext, flash: seq<Byte>, sent: seq<seq<Byte>>, failed: bool)

  const LOAD_START := Load(NO_EXT, InitialFlash(), [], false)

  /** The bytes convert_hex_line gives for each line of the file. */
  function Converted(lines: seq<string>): (images: seq<seq<Byte>>)
    ensures |images| == |lines|
  {
    seq(|lines|, k requires 0 <= k < |lines| => LineBytes(lines[k]))
  }

  /**
   * One line of the writing pass, given the line's bytes: a line that is
   * not an accepted record is skipped; a record is applied to the image
   * and, when sendable, handed to the bootloader; a failed write ends the
   * pass.
   */
  function LoadLine(l: Load, bs: seq<Byte>, writeOk: bool): (l': Load)
    ensures l.failed ==> l' == l
    ensures |l'.flash| == |l.flash|
    ensures !l.failed && RecordOf(bs).None? ==> l' == l
    ensures !l.failed && RecordOf(bs).Some? ==>
      var r := RecordOf(bs).value;
      l'.ext == ExtAfter(l.ext, r) && l'.flash == Stored(l.flash, l.ext, r) &&
      (Sendable(l.ext, r) ==> l'.sent == l.sent + [bs] && l'.failed == !writeOk) &&
      (!Sendable(l.ext, r) ==> l'.sent == l.sent && !l'.failed)
  {
    if l.failed then l
    else match RecordOf(bs)
      case None => l
      case Some(r) =>
        var stored := l.(ext := ExtAfter(l.ext, r), flash := Stored(l.flash, l.ext, r));
        if Sendable(l.ext, r) then stored.(sent := l.sent + [bs], failed := !writeOk)
        else stored
  }

  /** The writing pass over the first n lines, with the outcome of each line's write. */
  function LoadPrefix(images: seq<seq<Byte>>, writeOk: seq<bool>, n: nat): (l: Load)
    requires n <= |images| && |writeOk| == |images|
    ensures |l.flash| == TOTAL_LENGTH
  {
    if n == 0 then LOAD_START
    else LoadLine(LoadPrefix(images, writeOk, n - 1), images[n - 1], writeOk[n - 1])
  }

  /** The whole writing pass over a file. */
  function LoadAll(lines: seq<string>, writeOk: seq<bool>): Load
    requires |writeOk| == |lines|
  {
    LoadPrefix(Converted(lines), writeOk, |lines|)
  }

  /** A failed write ends the pass: nothing after it is sent. */
  lemma {:induction false} LoadStaysFailed(images: seq<seq<Byte>>, writeOk: seq<bool>, k: nat, n: nat)
    requires k <= n <= |images| && |writeOk| == |images| && LoadPrefix(images, writeOk, k).failed
    ensures LoadPrefix(images, writeOk, n) == LoadPrefix(images, writeOk, k)
    decreases n
  {
    if n > k {
      LoadStaysFailed(images, writeOk, k, n - 1);
    }
  }

  /** While no write fails, the writing pass sees the bases the check saw. */
  lemma {:induction false} LoadTracksVerify(lines: seq<string>, writeOk: seq<bool>, k: nat)
    requires k <= |lines| && |writeOk| == |lines|
    requires Verify(lines[..k]).ok && !LoadPrefix(Converted(lines), writeOk, k).failed
    ensures LoadPrefix(Converted(lines), writeOk, k).ext == Verify(lines[..k]).ext
  {
    if k > 0 {
      VerifySnoc(lines, k - 1);
      assert Converted(lines)[k - 1] == LineBytes(lines[k - 1]);
      assert !LoadPrefix(Converted(lines), writeOk, k - 1).failed;
      LoadTracksVerify(lines, writeOk, k - 1);
    }
  }

  /** Every buffer handed to the bootloader is one complete record, checksum included. */
  predicate AllRecords(sent: seq<seq<Byte>>)
  {
    forall i :: 0 <= i < |sent| ==> RecordOf(sent[i]).Some?
  }

  /** One line of the writing pass sends at most one buffer, and it is a record. */
  lemma LoadLineSendsRecord(l: Load, bs: seq<Byte>, writeOk: bool)
    requires AllRecords(l.sent)
    ensures AllRecords(LoadLine(l, bs, writeOk).sent)
  {
  }

  lemma {:induction false} SentAreRecords(images: seq<seq<Byte>>, writeOk: seq<bool>, n: nat)
    requires n <= |images| && |writeOk| == |images|
    ensures AllRecords(LoadPrefix(images, writeOk, n).sent)
  {
    if n > 0 {
      SentAreRecords(images, writeOk, n - 1);
      LoadLineSendsRecord(LoadPrefix(images, writeOk, n - 1), images[n - 1], writeOk[n - 1]);
    }
  }

  /** The answers the update receives: the file, the device's replies and the key the user presses. */
  datatype Session = Session(fileOpens: bool, deviceOpens: bool, versionRead: bool, key: char,
                             enterOk: bool, eraseOk: bool, writeOk: seq<bool>,
                             deviceCrc: Option<bv16>, jumpOk: bool)

  /** Everything that comes before the first write succeeded. */
  predicate Prepared(lines: seq<string>, s: Session)
  {
    s.fileOpens && Verify(lines).ok && s.deviceOpens && s.versionRead &&
    (s.key == 'y' || s.key == 'Y') && s.enterOk && s.eraseOk
  }

  /** The CRC of the user region of an image. */
  function UserCrc(flash: seq<Byte>): bv16
    requires |flash| == TOTAL_LENGTH
  {
    Crc16(flash[USER_START..USER_START + USER_LENGTH])
  }

  /**
   * The image, the buffers sent and the failure flag are those of the
   * writing pass after its first k lines; after a failure only the
   * buffers sent are tracked, as the image is no longer used.
   */
  predicate Written(image: VirtualFlash, images: seq<seq<Byte>>, writeOk: seq<bool>, k: nat,
                    sent: seq<seq<Byte>>, failed: bool)
    reads image, image.flash
  {
    k <= |images| && |writeOk| == |images| &&
    var l := LoadPrefix(images, writeOk, k);
    image.Valid() && failed == l.failed && sent == l.sent &&
    (!failed ==> image.ext == l.ext && image.flash[..] == l.flash)
  }

  /**
   * One pass of the writing loop: the line is processed into the image
   * and, when it is a sendable record, written.
   */
  method WriteLine(image: VirtualFlash, buffer: array<Byte>, lines: seq<string>, ghost images: seq<seq<Byte>>,
                   writeOk: seq<bool>, k: nat, sent: seq<seq<Byte>>)
    returns (sent': seq<seq<Byte>>, failed: bool)
    requires k < |lines| && |writeOk| == |lines| && Verify(lines).ok && images == Converted(lines)
    requires buffer.Length == LINE_BUFFER_SIZE && Written(image, images, writeOk, k, sent, false)
    modifies image, image.flash, buffer
    ensures Written(image, images, writeOk, k + 1, sent', failed)
  {
    VerifiedLineFits(lines, k);
    VerifyPrefix(lines, k);
    LoadTracksVerify(lines, writeOk, k);
    ghost var l := LoadPrefix(images, writeOk, k);
    ghost var l' := LoadLine(l, images[k], writeOk[k]);
    assert LoadPrefix(images, writeOk, k + 1) == l';
    assert images[k] == LineBytes(lines[k]);
    var count, recType, address := image.ProcessHexLine(lines[k], buffer);
    sent', failed := sent, false;
    if count != 0 && !(recType == DATA_RECORD && (address < USER_START || address >= USER_START + USER_LENGTH)) {
      sent' := sent + [buffer[..count]];
      failed := !writeOk[k];
    }
    if LineRecord(lines[k]).Some? {
      ghost var r := LineRecord(lines[k]).value;
      assert Sendable(l.ext, r) <==> sent' != sent;
      assert image.ext == l'.ext && image.flash[..] == l'.flash;
    }
  }

  /**
   * The writing loop of update_firmware: every line is processed into the
   * image, and each sendable record is written until a write fails.
   */
  method WriteRecords(image: VirtualFlash, lines: seq<string>, writeOk: seq<bool>)
    returns (failed: bool, sent: seq<seq<Byte>>)
    requires image.Valid() && image.ext == NO_EXT && image.flash[..] == InitialFlash()
    requires |writeOk| == |lines| && Verify(lines).ok
    modifies image, image.flash
    ensures image.Valid()
    ensures failed == LoadAll(lines, writeOk).failed && sent == LoadAll(lines, writeOk).sent
    ensures !failed ==> image.flash[..] == LoadAll(lines, writeOk).flash
  {
    ghost var images := Converted(lines);
    var buffer := new Byte[LINE_BUFFER_SIZE];
    assert Written(image, images, writeOk, 0, [], false);
    failed, sent := WritePass(image, buffer, lines, images, writeOk);
  }

  /** The lines of a checked file, each processed and, when sendable, written until a write fails. */
  method WritePass(image: VirtualFlash, buffer: array<Byte>, lines: seq<string>, ghost images: seq<seq<Byte>>,
                   writeOk: seq<bool>)
    returns (failed: bool, sent: seq<seq<Byte>>)
    requires |writeOk| == |lines| == |images|
    requires buffer.Length == LINE_BUFFER_SIZE && Written(image, images, writeOk, 0, [], false)
    requires Verify(lines).ok && images == Converted(lines)
    modifies image, image.flash, buffer
    ensures Written(image, images, writeOk, |lines|, sent, failed)
  {
    sent, failed := [], false;
    var k := 0;
    while k < |lines| && !failed
      invariant 0 <= k <= |lines|
      invariant Written(image, images, writeOk, k, sent, failed)
    {
      sent, failed := WriteLine(image, buffer, lines, images, writeOk, k, sent);
      k := k + 1;
    }
    if failed {
      WrittenStaysFailed(image, images, writeOk, k, sent);
    }
  }

  /** After a failed write the pass state no longer changes. */
  lemma WrittenStaysFailed(image: VirtualFlash, images: seq<seq<Byte>>, writeOk: seq<bool>, k: nat,
                           sent: seq<seq<Byte>>)
    requires k <= |images| && |writeOk| == |images| && Written(image, images, writeOk, k, sent, true)
    ensures Written(image, images, writeOk, |images|, sent, true)
  {
    LoadStaysFailed(images, writeOk, k, |images|);
  }

  /**
   * update_firmware: the image is initialised and the file checked; once
   * the device is open, its version read, the user has agreed and the
   * bootloader has erased the flash, each record is loaded and the
   * sendable ones written; the update succeeds only when every write
   * succeeds, the device's CRC of the user region equals the image's, and
   * the jump to the new firmware succeeds.
   */
  method UpdateFirmware(lines: seq<string>, s: Session) returns (exit: int, sent: seq<seq<Byte>>)
    requires |s.writeOk| == |lines|
    ensures exit == 0 || exit == 1
    ensures !Prepared(lines, s) ==> exit == 1 && sent == []
    ensures Prepared(lines, s) ==> sent == LoadAll(lines, s.writeOk).sent
    ensures exit == 0 <==>
      Prepared(lines, s) && !LoadAll(lines, s.writeOk).failed &&
      s.deviceCrc == Some(UserCrc(LoadAll(lines, s.writeOk).flash)) && s.jumpOk
  {
    var image := new VirtualFlash();
    image.Init();
    sent := [];
    if !s.fileOpens {
      return 1, sent;
    }
    var ok, userVersion, bootVersion := VerifyHexFile(lines);
    if !ok || !s.deviceOpens || !s.versionRead || !(s.key == 'y' || s.key == 'Y') || !s.enterOk || !s.eraseOk {
      return 1, sent;
    }
    var failed;
    failed, sent := WriteRecords(image, lines, s.writeOk);
    if failed {
      return 1, sent;
    }
    if s.deviceCrc.None? {
      return 1, sent;
    }
    var crc := CalculateCrc(image.flash, USER_START, USER_LENGTH);
    if s.deviceCrc.value != crc || !s.jumpOk {
      return 1, sent;
    }
    return 0, sent;
  }

  // ---------------------------------------------------------------------
  // main

  /** What main runs: the bootloader or the firmware update, on one board, from one file. */
  datatype Command = Command(bootloader: bool, address: nat, file: string)

  /**
   * main's argument rules, over argv[1..]: two arguments name the address
   * and the file; three need "-b" first and update the bootloader.  The
   * scans of sscanf's "%u" and "%s" are parameters.
   */
  function ParseArguments(args: seq<string>, scanUnsigned: string -> Option<U32>, scanWord: string -> Option<string>): (c: Option<Command>)
    ensures c.Some? <==>
      (|args| == 2 || (|args| == 3 && args[0] == "-b")) &&
      scanUnsigned(args[|args| - 2]).Some? && scanUnsigned(args[|args| - 2]).value < MAX_NUMBER_HATS &&
      scanWord(args[|args| - 1]).Some?
    ensures c.Some? ==>
      c.value.bootloader == (|args| == 3) &&
      Some(c.value.address) == scanUnsigned(args[|args| - 2]) &&
      Some(c.value.file) == scanWord(args[|args| - 1])
  {
    if |args| < 2 || |args| > 3 then None
    else if |args| == 3 && args[0] != "-b" then None
    else
      var addressIndex := if |args| == 3 then 1 else 0;
      var address := scanUnsigned(args[addressIndex]);
      if address.None? || address.value >= MAX_NUMBER_HATS then None
      else
        var file := scanWord(args[addressIndex + 1]);
        if file.None? then None
        else Some(Command(|args| == 3, address.value, file.value))
  }

  /**
   * main's exit status: 1 for bad arguments or a failed update; after an
   * update the board is reopened and its version read, and only when
   * both succeed is the status 0.
   */
  function MainExit(c: Option<Command>, updateResult: int, reopenOk: bool, versionOk: bool): (exit: int)
    ensures exit == 0 || exit == 1
    ensures exit == 0 <==> c.Some? && updateResult != 1 && reopenOk && versionOk
  {
    if c.None? || updateResult == 1 then 1
    else if !reopenOk || !versionOk then 1
    else 0
  }
}
