// The byte-level helpers of the MCC 118 firmware updater
// (tools/mcc118_firmware_update.c): an Intel HEX line turned into the
// bytes of its record, the record checksum, and the CRC-16 the device
// reports over its program memory (polynomial 0x1021, initial value 0,
// most significant bit first, no final xor: the CRC-16/XMODEM of the
// catalogue of parametrised CRC algorithms).

module Mcc118Hex {
  import opened DaqHats

  // ---------------------------------------------------------------------
  // Hex lines

  /** The value of a hex digit in either case. */
  function HexValue(c: char): (v: Option<nat>)
    ensures v.Some? <==> ('0' <= c <= '9') || ('a' <= c <= 'f') || ('A' <= c <= 'F')
    ensures v.Some? ==> v.value < 16
  {
    if '0' <= c <= '9' then Some(c as nat - '0' as nat)
    else if 'a' <= c <= 'f' then Some(c as nat - 'a' as nat + 10)
    else if 'A' <= c <= 'F' then Some(c as nat - 'A' as nat + 10)
    else None
  }

  /** strcspn(s, "\r\n"): the length of the line before its first CR or LF. */
  function LineEnd(s: string): (n: nat)
    ensures n <= |s|
    ensures forall i :: 0 <= i < n ==> s[i] != '\r' && s[i] != '\n'
    ensures n < |s| ==> s[n] == '\r' || s[n] == '\n'
  {
    if |s| == 0 || s[0] == '\r' || s[0] == '\n' then 0 else 1 + LineEnd(s[1..])
  }

  function Min(a: nat, b: nat): nat
  {
    if a <= b then a else b
  }

  /**
   * The characters convert_hex_line looks at: those after the ':' of the
   * line without its line ending, up to the two per byte that room is
   * left for.
   */
  function Visited(s: string, max: nat): (v: seq<char>)
    requires |s| > 0 && s[0] == ':'
    ensures |v| == Min(LineEnd(s) - 1, 2 * max)
  {
    var t := s[..LineEnd(s)];
    t[1..1 + Min(|t| - 1, 2 * max)]
  }

  /** The number of leading hex digits. */
  function GoodPrefix(cs: seq<char>): (n: nat)
    ensures n <= |cs|
    ensures forall i :: 0 <= i < n ==> HexValue(cs[i]).Some?
    ensures n < |cs| ==> HexValue(cs[n]).None?
  {
    if |cs| == 0 || HexValue(cs[0]).None? then 0 else 1 + GoodPrefix(cs[1..])
  }

  predicate AllHex(cs: seq<char>)
  {
    forall i :: 0 <= i < |cs| ==> HexValue(cs[i]).Some?
  }

  /** The nibble values of a run of hex digits. */
  function Nibbles(cs: seq<char>): (d: seq<nat>)
    requires AllHex(cs)
    ensures |d| == |cs|
    ensures forall i :: 0 <= i < |d| ==> d[i] < 16 && Some(d[i]) == HexValue(cs[i])
  {
    if |cs| == 0 then [] else [HexValue(cs[0]).value] + Nibbles(cs[1..])
  }

  predicate NibblesOk(d: seq<nat>)
  {
    forall i :: 0 <= i < |d| ==> d[i] < 16
  }

  /** Whole bytes from nibbles, high nibble first; a trailing odd nibble is dropped. */
  function PackNibbles(d: seq<nat>): (bs: seq<Byte>)
    requires NibblesOk(d)
    ensures |bs| == |d| / 2
    ensures forall k :: 0 <= k < |bs| ==> bs[k] == 16 * d[2 * k] + d[2 * k + 1]
  {
    seq(|d| / 2, k requires 0 <= k < |d| / 2 => 16 * d[2 * k] + d[2 * k + 1])
  }

  /**
   * The bytes convert_hex_line reports (its count is their number): none
   * for a line without a leading ':' or with a non-hex character among the
   * characters it looks at.
   */
  function HexLineBytes(s: string, max: nat): (bs: seq<Byte>)
    ensures |bs| <= max
    ensures (|s| == 0 || s[0] != ':') ==> bs == []
    ensures |s| > 0 && s[0] == ':' && AllHex(Visited(s, max)) ==>
      bs == PackNibbles(Nibbles(Visited(s, max))) && |bs| == Min(LineEnd(s) - 1, 2 * max) / 2
    ensures |s| > 0 && s[0] == ':' && !AllHex(Visited(s, max)) ==> bs == []
  {
    if |s| == 0 || s[0] != ':' then []
    else
      var v := Visited(s, max);
      GoodPrefixAll(v);
      if GoodPrefix(v) < |v| then [] else PackNibbles(Nibbles(v))
  }

  /**
   * The buffer after nibbles d have been stored: each pair becomes a byte,
   * a trailing odd nibble is stored shifted into the high half of the next
   * byte, and the rest is untouched.
   */
  function Filled(buf: seq<Byte>, d: seq<nat>): (r: seq<Byte>)
    requires NibblesOk(d) && (|d| + 1) / 2 <= |buf|
    ensures |r| == |buf|
  {
    seq(|buf|, k requires 0 <= k < |buf| =>
      if k < |d| / 2 then 16 * d[2 * k] + d[2 * k + 1]
      else if k == |d| / 2 && |d| % 2 == 1 then 16 * d[2 * k]
      else buf[k])
  }

  /** The buffer after convert_hex_line stored the digits of a line up to its first bad one. */
  function LineFilled(buf: seq<Byte>, s: string, max: nat): (r: seq<Byte>)
    requires |s| > 0 && s[0] == ':' && max <= |buf|
    ensures |r| == |buf|
  {
    var v := Visited(s, max);
    Filled(buf, Nibbles(v[..GoodPrefix(v)]))
  }

  /**
   * convert_hex_line: the line's hex digits stored as bytes in the
   * buffer.  The count is that of HexLineBytes; on a bad digit the bytes
   * stored before it stay in the buffer.
   */
  method ConvertHexLine(s: string, buffer: array?<Byte>, max: nat) returns (count: nat)
    requires buffer != null ==> max <= buffer.Length
    modifies buffer
    ensures buffer == null || |s| == 0 || s[0] != ':' ==> count == 0
    ensures buffer != null && (|s| == 0 || s[0] != ':') ==> buffer[..] == old(buffer[..])
    ensures buffer != null && |s| > 0 && s[0] == ':' ==>
      count == |HexLineBytes(s, max)| && buffer[..count] == HexLineBytes(s, max) &&
      buffer[..] == LineFilled(old(buffer[..]), s, max)
  {
    if |s| == 0 || s[0] != ':' {
      return 0;
    }
    if buffer == null {
      return 0;
    }
    count := ConvertDigits(s, buffer, max);
  }

  /** The digit loop of ConvertHexLine, on a line that starts with ':'. */
  method ConvertDigits(s: string, buffer: array<Byte>, max: nat) returns (count: nat)
    requires |s| > 0 && s[0] == ':' && max <= buffer.Length
    modifies buffer
    ensures count == |HexLineBytes(s, max)| && buffer[..count] == HexLineBytes(s, max)
    ensures buffer[..] == LineFilled(old(buffer[..]), s, max)
  {
    var len := LineEnd(s);
    ghost var n := |Visited(s, max)|;
    ghost var start := buffer[..];
    count := 0;
    var nibble := 0;
    var index := 1;
    ScanBegins(s, max, start);
    while index < len && count < max
      invariant 1 <= index <= len && nibble < 2 && index - 1 == 2 * count + nibble
      invariant (index < len && count < max) <==> index - 1 < n
      invariant Scanned(s, max, start, buffer[..], index)
      decreases len - index
    {
      var temp := HexValue(s[index]);
      if temp.None? {
        BadDigit(s, max, start, buffer[..], index);
        return 0;
      }
      count, nibble := DigitStep(s, max, buffer, start, index, count, nibble, temp.value);
      index := index + 1;
    }
    DigitsEnd(s, max, start, buffer[..], index, count, nibble);
  }

  /**
   * The state of the digit loop before character `index` of the line: the
   * characters visited so far are hex digits and their nibbles are stored.
   */
  predicate Scanned(s: string, max: nat, start: seq<Byte>, buf: seq<Byte>, index: nat)
  {
    |s| > 0 && s[0] == ':' && max <= |start| && 1 <= index && index - 1 <= |Visited(s, max)| &&
    AllHex(Visited(s, max)[..index - 1]) &&
    buf == Filled(start, Nibbles(Visited(s, max)[..index - 1]))
  }

  /** Before the loop nothing is stored. */
  lemma ScanBegins(s: string, max: nat, start: seq<Byte>)
    requires |s| > 0 && s[0] == ':' && max <= |start|
    ensures |Visited(s, max)| == Min(LineEnd(s) - 1, 2 * max)
    ensures (1 < LineEnd(s) && 0 < max) <==> 0 < |Visited(s, max)|
    ensures Scanned(s, max, start, start, 1)
  {
    var v := Visited(s, max);
    assert v[..0] == [];
    assert Filled(start, []) == start;
  }

  /** A character that is not a hex digit ends the good prefix and empties the line's bytes. */
  lemma BadDigit(s: string, max: nat, start: seq<Byte>, buf: seq<Byte>, index: nat)
    requires Scanned(s, max, start, buf, index)
    requires index - 1 < |Visited(s, max)| && HexValue(s[index]).None?
    ensures 0 == |HexLineBytes(s, max)|
    ensures buf == LineFilled(start, s, max)
  {
    var v := Visited(s, max);
    VisitedAt(s, max, index - 1);
    GoodPrefixAt(v, index - 1);
    GoodPrefixAll(v);
  }

  /** The loop ends with every visited character a digit: the buffer's whole bytes are the line's bytes. */
  lemma DigitsEnd(s: string, max: nat, start: seq<Byte>, buf: seq<Byte>, index: nat, count: nat, nibble: nat)
    requires Scanned(s, max, start, buf, index) && index - 1 == |Visited(s, max)|
    requires nibble < 2 && index - 1 == 2 * count + nibble
    ensures count == |HexLineBytes(s, max)| && buf[..count] == HexLineBytes(s, max)
    ensures buf == LineFilled(start, s, max)
  {
    var v := Visited(s, max);
    assert v[..index - 1] == v;
    DivUnique(|v|, 2, count, nibble);
    GoodPrefixAt(v, |v|);
    assert buf[..count] == PackNibbles(Nibbles(v));
  }

  /** One pass of the digit loop on a hex digit: its nibble is stored. */
  method DigitStep(s: string, max: nat, buffer: array<Byte>, ghost start: seq<Byte>, index: nat,
                   count: nat, nibble: nat, t: nat)
    returns (count': nat, nibble': nat)
    requires Scanned(s, max, start, buffer[..], index) && |start| == buffer.Length
    requires index - 1 < |Visited(s, max)| && index < |s| && HexValue(s[index]) == Some(t)
    requires nibble < 2 && index - 1 == 2 * count + nibble
    modifies buffer
    ensures Scanned(s, max, start, buffer[..], index + 1)
    ensures nibble' < 2 && index == 2 * count' + nibble'
  {
    ghost var v := Visited(s, max);
    VisitedAt(s, max, index - 1);
    assert AllHex(v[..index]) by {
      assert forall i :: 0 <= i < index - 1 ==> v[..index][i] == v[..index - 1][i];
    }
    ghost var d := Nibbles(v[..index - 1]);
    assert Nibbles(v[..index]) == d + [t] by {
      NibblesSnoc(v, index - 1);
    }
    DivUnique(index - 1, 2, count, nibble);
    count', nibble' := StoreNibble(buffer, start, d, count, nibble, t);
    DivUnique(index, 2, (index - 1 + 1) / 2, index % 2);
  }

  /** One nibble stored: a high half starts a byte, a low half completes it. */
  method StoreNibble(buffer: array<Byte>, ghost start: seq<Byte>, ghost d: seq<nat>, count: nat, nibble: nat, t: nat)
    returns (count': nat, nibble': nat)
    requires NibblesOk(d) && t < 16 && (|d| + 2) / 2 <= buffer.Length == |start|
    requires buffer[..] == Filled(start, d) && count == |d| / 2 && nibble == |d| % 2
    modifies buffer
    ensures NibblesOk(d + [t])
    ensures buffer[..] == Filled(start, d + [t])
    ensures count' == (|d| + 1) / 2 && nibble' == (|d| + 1) % 2
  {
    FilledSnoc(start, d, t);
    ghost var before := buffer[..];
    if nibble == 0 {
      buffer[count] := t * 16;
      assert buffer[..] == before[count := t * 16];
      count', nibble' := count, 1;
    } else {
      // The low nibble of the stored high half is zero, so the source's
      // OR is an addition.
      buffer[count] := buffer[count] + t;
      assert buffer[..] == before[count := before[count] + t];
      count', nibble' := count + 1, 0;
    }
  }

  lemma VisitedAt(s: string, max: nat, i: nat)
    requires |s| > 0 && s[0] == ':' && i < |Visited(s, max)|
    ensures Visited(s, max)[i] == s[i + 1]
  {
  }

  /** Storing one more nibble changes one byte of the buffer. */
  lemma FilledSnoc(buf: seq<Byte>, d: seq<nat>, t: nat)
    requires NibblesOk(d) && t < 16 && (|d| + 2) / 2 <= |buf|
    ensures NibblesOk(d + [t])
    ensures |d| % 2 == 0 ==> Filled(buf, d + [t]) == Filled(buf, d)[|d| / 2 := 16 * t]
    ensures |d| % 2 == 1 ==> Filled(buf, d + [t]) == Filled(buf, d)[|d| / 2 := Filled(buf, d)[|d| / 2] + t]
  {
    var e := d + [t];
    assert NibblesOk(e);
    var a := Filled(buf, e);
    var b := Filled(buf, d);
    var m := |d| / 2;
    if |d| % 2 == 0 {
      forall k | 0 <= k < |buf|
        ensures a[k] == b[m := 16 * t][k]
      {
        if k < m {
          assert e[2 * k] == d[2 * k] && e[2 * k + 1] == d[2 * k + 1];
        }
      }
    } else {
      forall k | 0 <= k < |buf|
        ensures a[k] == b[m := b[m] + t][k]
      {
        if k < m {
          assert e[2 * k] == d[2 * k] && e[2 * k + 1] == d[2 * k + 1];
        } else if k == m {
          assert e[2 * k] == d[2 * k] && e[2 * k + 1] == t;
        }
      }
    }
  }

  /** The leading hex digits are the whole run exactly when every character is a hex digit. */
  lemma GoodPrefixAll(cs: seq<char>)
    ensures GoodPrefix(cs) == |cs| <==> AllHex(cs)
  {
  }

  lemma GoodPrefixAt(cs: seq<char>, n: nat)
    requires n <= |cs| && AllHex(cs[..n])
    requires n < |cs| ==> HexValue(cs[n]).None?
    ensures GoodPrefix(cs) == n
  {
    assert forall i :: 0 <= i < n ==> cs[..n][i] == cs[i];
  }

  lemma NibblesSnoc(cs: seq<char>, n: nat)
    requires n < |cs| && AllHex(cs[..n + 1])
    ensures AllHex(cs[..n])
    ensures Nibbles(cs[..n + 1]) == Nibbles(cs[..n]) + [HexValue(cs[n]).value]
  {
    assert forall i :: 0 <= i < n ==> cs[..n][i] == cs[..n + 1][i];
    var a := Nibbles(cs[..n + 1]);
    var b := Nibbles(cs[..n]) + [HexValue(cs[n]).value];
    assert forall i :: 0 <= i < n + 1 ==> a[i] == b[i] by {
      forall i | 0 <= i < n + 1
        ensures a[i] == b[i]
      {
        assert Some(a[i]) == HexValue(cs[..n + 1][i]);
        if i < n {
          assert Some(b[i]) == HexValue(cs[..n][i]);
        }
      }
    }
  }

  // ---------------------------------------------------------------------
  // Encoding a record as a hex line

  const HEX_DIGITS: string := "0123456789ABCDEF"

  /** Each digit of the table stands for its own position. */
  lemma HexDigitValue(j: nat)
    requires j < 16
    ensures HexValue(HEX_DIGITS[j]) == Some(j)
  {
  }

  /** Two upper-case hex digits per byte, high nibble first. */
  function Digits(bs: seq<Byte>): (cs: string)
    ensures |cs| == 2 * |bs|
  {
    seq(2 * |bs|, i requires 0 <= i < 2 * |bs| =>
      if i % 2 == 0 then HEX_DIGITS[bs[i / 2] / 16] else HEX_DIGITS[bs[i / 2] % 16])
  }

  /** A hex line for the bytes, with the usual line ending. */
  function EncodeHexLine(bs: seq<Byte>): (s: string)
    ensures |s| == 2 * |bs| + 3
  {
    [':'] + Digits(bs) + "\r\n"
  }

  /** Digits 2k and 2k + 1 of an encoded byte string are the two nibbles of byte k. */
  lemma DigitPair(bs: seq<Byte>, k: nat)
    requires k < |bs|
    ensures HexValue(Digits(bs)[2 * k]) == Some(bs[k] / 16)
    ensures HexValue(Digits(bs)[2 * k + 1]) == Some(bs[k] % 16)
  {
    assert (2 * k) / 2 == k && (2 * k) % 2 == 0;
    assert (2 * k + 1) / 2 == k && (2 * k + 1) % 2 == 1;
    HexDigitValue(bs[k] / 16);
    HexDigitValue(bs[k] % 16);
  }

  /** Every character of an encoded byte string is a hex digit. */
  lemma DigitsAllHex(bs: seq<Byte>)
    ensures AllHex(Digits(bs))
  {
    var ds := Digits(bs);
    forall i | 0 <= i < |ds|
      ensures HexValue(ds[i]).Some?
    {
      var k := i / 2;
      DigitPair(bs, k);
      assert i == 2 * k || i == 2 * k + 1;
    }
  }

  /** An encoded line holds only hex digits up to its line ending. */
  lemma EncodedLineShape(bs: seq<Byte>)
    ensures LineEnd(EncodeHexLine(bs)) == 2 * |bs| + 1
    ensures AllHex(Digits(bs))
  {
    var s := EncodeHexLine(bs);
    var ds := Digits(bs);
    DigitsAllHex(bs);
    assert forall i :: 0 <= i < |ds| ==> HexValue(ds[i]).Some?;
    assert forall i :: 0 <= i < |ds| ==> s[1 + i] == ds[i];
    LineEndAt(s, 2 * |bs| + 1);
  }

  /** The bytes packed from an encoded string's digits are the bytes encoded. */
  lemma PackDigits(bs: seq<Byte>)
    ensures AllHex(Digits(bs))
    ensures PackNibbles(Nibbles(Digits(bs))) == bs
  {
    var ds := Digits(bs);
    DigitsAllHex(bs);
    var d := Nibbles(ds);
    var r := PackNibbles(d);
    forall k | 0 <= k < |bs|
      ensures r[k] == bs[k]
    {
      DigitPair(bs, k);
      assert d[2 * k] == bs[k] / 16 && d[2 * k + 1] == bs[k] % 16;
    }
  }

  /** convert_hex_line reads back exactly the bytes a line was written from. */
  lemma HexLineRoundTrip(bs: seq<Byte>, max: nat)
    requires |bs| <= max
    ensures HexLineBytes(EncodeHexLine(bs), max) == bs
  {
    var s := EncodeHexLine(bs);
    EncodedLineShape(bs);
    assert Visited(s, max) == Digits(bs);
    PackDigits(bs);
  }

  lemma LineEndAt(s: string, n: nat)
    requires n <= |s|
    requires forall i :: 0 <= i < n ==> s[i] != '\r' && s[i] != '\n'
    requires n < |s| ==> s[n] == '\r' || s[n] == '\n'
    ensures LineEnd(s) == n
  {
  }

  // ---------------------------------------------------------------------
  // The record checksum

  /** The sum of the bytes, in unbounded arithmetic. */
  function ByteSum(bs: seq<Byte>): nat
  {
    if |bs| == 0 then 0 else ByteSum(bs[..|bs| - 1]) + bs[|bs| - 1]
  }

  /** The uint8 sum process_hex_line and verify_hex_file compute over a line's bytes. */
  method Checksum(buffer: array<Byte>, count: nat) returns (checksum: Byte)
    requires count <= buffer.Length
    ensures checksum == ByteSum(buffer[..count]) % 256
  {
    checksum := 0;
    for index := 0 to count
      invariant checksum == ByteSum(buffer[..index]) % 256
    {
      assert buffer[..index + 1][..index] == buffer[..index];
      ModAddByte(ByteSum(buffer[..index]), buffer[index]);
      checksum := (checksum + buffer[index]) % 256;
    }
  }

  /** The checksum byte of a record: the two's complement of the sum of the other bytes. */
  function ChecksumByte(bs: seq<Byte>): (c: Byte)
    ensures (ByteSum(bs) + c) % 256 == 0
  {
    (256 - ByteSum(bs) % 256) % 256
  }

  /** A record completed by its checksum byte sums to zero, and no other final byte does. */
  lemma ChecksumCompletes(bs: seq<Byte>, c: Byte)
    ensures ByteSum(bs + [c]) % 256 == 0 <==> c == ChecksumByte(bs)
  {
    assert (bs + [c])[..|bs|] == bs;
    var r := ByteSum(bs) % 256;
    ModAddByte(ByteSum(bs), c);
    if r + c < 256 {
      DivUnique(r + c, 256, 0, r + c);
    } else {
      DivUnique(r + c, 256, 1, r + c - 256);
    }
    if r == 0 {
      DivUnique(256, 256, 1, 0);
    } else {
      DivUnique(256 - r, 256, 0, 256 - r);
    }
  }

  // ---------------------------------------------------------------------
  // CRC-16

  /**
   * One bit of the reference CRC, fed most significant bit first: the
   * register shifts left and the polynomial is folded in when the bit
   * falling out differs from the message bit, the lowest bit of m.
   */
  function BitStep(crc: bv16, m: bv16): bv16
  {
    if ((crc >> 15) ^ m) & 1 == 1 then (crc << 1) ^ 0x1021 else crc << 1
  }

  /** The four bits of a nibble, highest first. */
  function Feed4(crc: bv16, n: bv16): bv16
  {
    BitStep(BitStep(BitStep(BitStep(crc, n >> 3), n >> 2), n >> 1), n)
  }

  /** The reference CRC step for one byte: its high nibble, then its low nibble. */
  function CrcByte(crc: bv16, b: bv8): bv16
  {
    Feed4(Feed4(crc, (b as bv16) >> 4), (b as bv16) & 0x0F)
  }

  /** The reference CRC-16 of a byte string with initial value 0 and no final xor. */
  function Crc16(bs: seq<Byte>): bv16
  {
    if |bs| == 0 then 0 else CrcByte(Crc16(bs[..|bs| - 1]), bs[|bs| - 1] as bv8)
  }

  /** crc_table, indexed by the low four bits of its argument. */
  function TableEntry(x: bv16): bv16
  {
    match x & 0x0F
    case 0 => 0x0000 case 1 => 0x1021 case 2 => 0x2042 case 3 => 0x3063
    case 4 => 0x4084 case 5 => 0x50a5 case 6 => 0x60c6 case 7 => 0x70e7
    case 8 => 0x8108 case 9 => 0x9129 case 10 => 0xa14a case 11 => 0xb16b
    case 12 => 0xc18c case 13 => 0xd1ad case 14 => 0xe1ce case _ => 0xf1ef
  }

  /** One half-byte step of calculate_crc's loop. */
  function TableStep(crc: bv16, x: bv16): bv16
  {
    TableEntry((crc >> 12) ^ x) ^ (crc << 4)
  }

  /** calculate_crc's step for one byte: the high nibble, then the whole byte masked by the table index. */
  function SourceByteStep(crc: bv16, b: bv8): bv16
  {
    TableStep(TableStep(crc, (b as bv16) >> 4), b as bv16)
  }

  /** The table holds the reference CRC of each nibble fed into a zero register. */
  lemma TableIsReference(x: bv16)
    ensures TableEntry(x) == Feed4(0, x & 0x0F)
  {
  }

  /** The register's top nibble and the message nibble combine into one table index. */
  lemma Feed4Split(crc: bv16, n: bv16)
    requires n < 16
    ensures Feed4(0, ((crc >> 12) ^ n) & 0x0F) ^ (crc << 4) == Feed4(crc, n)
  {
  }

  lemma TableStepUnfolded(crc: bv16, x: bv16, n: bv16)
    requires n < 16 && x & 0x0F == n
    ensures TableEntry((crc >> 12) ^ x) ^ (crc << 4) == Feed4(crc, n)
  {
    TableIsReference((crc >> 12) ^ x);
    assert ((crc >> 12) ^ x) & 0x0F == ((crc >> 12) ^ n) & 0x0F;
    Feed4Split(crc, n);
  }

  /** A table step is the reference CRC of the nibble in the low four bits of x. */
  lemma TableStepIsReference(crc: bv16, x: bv16, n: bv16)
    requires n < 16 && x & 0x0F == n
    ensures TableStep(crc, x) == Feed4(crc, n)
  {
    TableStepUnfolded(crc, x, n);
  }

  /** calculate_crc's step for a byte is the reference step for that byte. */
  lemma SourceByteStepIsReference(crc: bv16, b: bv8)
    ensures SourceByteStep(crc, b) == CrcByte(crc, b)
  {
    TableStepIsReference(crc, (b as bv16) >> 4, (b as bv16) >> 4);
    TableStepIsReference(Feed4(crc, (b as bv16) >> 4), b as bv16, (b as bv16) & 0x0F);
  }

  /** calculate_crc over len bytes of buf from start. */
  method CalculateCrc(buf: array<Byte>, start: nat, len: nat) returns (crc: bv16)
    requires start + len <= buf.Length
    ensures crc == Crc16(buf[start..start + len])
  {
    crc := 0;
    var k := 0;
    while k < len
      invariant k <= len
      invariant crc == Crc16(buf[start..start + k])
    {
      var b := buf[start + k] as bv8;
      CrcSliceStep(buf[..], start, k, crc);
      crc := TableStep(crc, (b as bv16) >> 4);
      crc := TableStep(crc, b as bv16);
      k := k + 1;
    }
  }

  /** One step of calculate_crc extends the CRC of a slice by its next byte. */
  lemma CrcSliceStep(s: seq<Byte>, start: nat, k: nat, crc: bv16)
    requires start + k < |s| && crc == Crc16(s[start..start + k])
    ensures SourceByteStep(crc, s[start + k] as bv8) == Crc16(s[start..start + k + 1])
  {
    SourceByteStepIsReference(crc, s[start + k] as bv8);
    assert s[start..start + k + 1][..k] == s[start..start + k];
  }

  /** The catalogued check value of CRC-16/XMODEM: the CRC of the ASCII digits "123456789" is 0x31C3. */
  lemma CrcCheckValue()
    ensures Crc16([0x31, 0x32, 0x33, 0x34, 0x35, 0x36, 0x37, 0x38, 0x39]) == 0x31C3
  {
    var d: seq<Byte> := [0x31, 0x32, 0x33, 0x34, 0x35, 0x36, 0x37, 0x38, 0x39];
    var v: seq<bv16> := [0x0000, 0x2672, 0x20B5, 0x9752, 0xD789, 0x546C, 0x20E4, 0x86D6, 0x9015, 0x31C3];
    forall k | 0 <= k < 9 ensures CrcByte(v[k], d[k] as bv8) == v[k + 1] {
      if k < 3 { CrcDigitsLow(d, v, k); } else if k < 6 { CrcDigitsMid(d, v, k); } else { CrcDigitsHigh(d, v, k); }
    }
    CrcChain(d, v, 9);
    assert d[..9] == d;
  }

  /** The reference steps over the digits, three at a time. */
  lemma CrcDigitsLow(d: seq<Byte>, v: seq<bv16>, k: nat)
    requires d == [0x31, 0x32, 0x33, 0x34, 0x35, 0x36, 0x37, 0x38, 0x39]
    requires v == [0x0000, 0x2672, 0x20B5, 0x9752, 0xD789, 0x546C, 0x20E4, 0x86D6, 0x9015, 0x31C3]
    requires 0 <= k < 3
    ensures CrcByte(v[k], d[k] as bv8) == v[k + 1]
  {
    if k == 0 { assert CrcByte(0x0000, 0x31) == 0x2672; }
    else if k == 1 { assert CrcByte(0x2672, 0x32) == 0x20B5; }
    else { assert CrcByte(0x20B5, 0x33) == 0x9752; }
  }

  lemma CrcDigitsMid(d: seq<Byte>, v: seq<bv16>, k: nat)
    requires d == [0x31, 0x32, 0x33, 0x34, 0x35, 0x36, 0x37, 0x38, 0x39]
    requires v == [0x0000, 0x2672, 0x20B5, 0x9752, 0xD789, 0x546C, 0x20E4, 0x86D6, 0x9015, 0x31C3]
    requires 3 <= k < 6
    ensures CrcByte(v[k], d[k] as bv8) == v[k + 1]
  {
    if k == 3 { assert CrcByte(0x9752, 0x34) == 0xD789; }
    else if k == 4 { assert CrcByte(0xD789, 0x35) == 0x546C; }
    else { assert CrcByte(0x546C, 0x36) == 0x20E4; }
  }

  lemma CrcDigitsHigh(d: seq<Byte>, v: seq<bv16>, k: nat)
    requires d == [0x31, 0x32, 0x33, 0x34, 0x35, 0x36, 0x37, 0x38, 0x39]
    requires v == [0x0000, 0x2672, 0x20B5, 0x9752, 0xD789, 0x546C, 0x20E4, 0x86D6, 0x9015, 0x31C3]
    requires 6 <= k < 9
    ensures CrcByte(v[k], d[k] as bv8) == v[k + 1]
  {
    if k == 6 { assert CrcByte(0x20E4, 0x37) == 0x86D6; }
    else if k == 7 { assert CrcByte(0x86D6, 0x38) == 0x9015; }
    else { assert CrcByte(0x9015, 0x39) == 0x31C3; }
  }

  /** A run of known byte steps from the initial value gives the CRC of each prefix. */
  lemma {:induction false} CrcChain(d: seq<Byte>, v: seq<bv16>, n: nat)
    requires n <= |d| && |v| == |d| + 1 && v[0] == 0
    requires forall k :: 0 <= k < n ==> CrcByte(v[k], d[k] as bv8) == v[k + 1]
    ensures Crc16(d[..n]) == v[n]
  {
    if n > 0 {
      CrcChain(d, v, n - 1);
      assert d[..n] == d[..n - 1] + [d[n - 1]];
      CrcSnoc(d[..n - 1], d[n - 1]);
    }
  }

  /** Feeding one more byte is one more reference step. */
  lemma CrcSnoc(bs: seq<Byte>, b: Byte)
    ensures Crc16(bs + [b]) == CrcByte(Crc16(bs), b as bv8)
  {
    assert (bs + [b])[..|bs|] == bs;
  }

  /** The CRC of an empty buffer is 0. */
  lemma CrcEmpty()
    ensures Crc16([]) == 0
  {
  }
}
