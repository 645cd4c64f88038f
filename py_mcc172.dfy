// The MCC 172 Python class (daqhats/mcc172.py) where it does more than
// hand its arguments to libdaqhats: the actual-rate calculation done in
// Python, the channel-mask check of a_in_scan_start, the synchronized
// flag of a_in_clock_config_read and the formatting of the firmware
// version.  a_in_scan_status and a_in_scan_read are PyScan.Status and
// PyScan.ScanRead.

module PyMcc172 {
  import opened DaqHats
  import opened PyHats
  import PyScan

  const MAX_SAMPLE_RATE: real := 51200.0
  const MAX_DIVISOR: nat := 256

  // ---------------------------------------------------------------------
  // a_in_scan_actual_rate

  /**
   * The divisor a_in_scan_actual_rate settles on: int() of
   * 51200 / rate + 0.5 clamped to [1, 256]. The clamped value is at least
   * 1, so int() truncates it like Floor.
   */
  function Divisor(rate: real): (k: nat)
    requires rate != 0.0
    ensures 1 <= k <= MAX_DIVISOR
    ensures 1.0 <= MAX_SAMPLE_RATE / rate + 0.5 < 257.0 ==>
      k as real - 0.5 <= MAX_SAMPLE_RATE / rate < k as real + 0.5
    ensures MAX_SAMPLE_RATE / rate + 0.5 < 1.0 ==> k == 1
    ensures MAX_SAMPLE_RATE / rate + 0.5 >= 257.0 ==> k == MAX_DIVISOR
  {
    var divisor := MAX_SAMPLE_RATE / rate + 0.5;
    var clamped := if divisor < 1.0 then 1.0 else if divisor > 256.0 then 256.0 else divisor;
    clamped.Floor
  }

  /**
   * a_in_scan_actual_rate(sample_rate_per_channel): 51200 over the divisor,
   * so always one of the 256 rates the clock can make; a rate of 0 makes
   * the first division raise.
   */
  function ActualRate(rate: real): (r: Outcome<real>)
    ensures r.Raised? <==> rate == 0.0
    ensures r.Raised? ==> r.error == ZeroDivisionError
    ensures r.Returned? ==> exists k: nat :: 1 <= k <= MAX_DIVISOR && r.value == RateOf(k)
    ensures r.Returned? ==> MAX_SAMPLE_RATE / MAX_DIVISOR as real <= r.value <= MAX_SAMPLE_RATE
  {
    if rate == 0.0 then Raised(ZeroDivisionError)
    else
      var k := Divisor(rate);
      assert MAX_SAMPLE_RATE / k as real <= MAX_SAMPLE_RATE;
      Returned(RateOf(k))
  }

  /** The rate the clock makes with divisor k. */
  function RateOf(k: nat): real
    requires k >= 1
  {
    MAX_SAMPLE_RATE / k as real
  }

  /** An actual rate is its own actual rate: asking for it again changes nothing. */
  lemma ActualRateIdempotent(rate: real)
    requires ActualRate(rate).Returned?
    ensures ActualRate(ActualRate(rate).value) == ActualRate(rate)
  {
    var k := Divisor(rate);
    var a := MAX_SAMPLE_RATE / k as real;
    assert a * k as real == MAX_SAMPLE_RATE;
    assert MAX_SAMPLE_RATE / a == k as real;
    assert Divisor(a) == k;
  }

  /** Within the clock's range the divisor is the whole number nearest 51200 / rate. */
  lemma ActualRateNearest(rate: real)
    requires MAX_SAMPLE_RATE / 256.0 <= rate <= MAX_SAMPLE_RATE
    ensures var k := Divisor(rate);
      k as real - 0.5 <= MAX_SAMPLE_RATE / rate < k as real + 0.5 &&
      ActualRate(rate) == Returned(RateOf(k))
  {
    var q := MAX_SAMPLE_RATE / rate;
    assert q * rate == MAX_SAMPLE_RATE;
    assert (q - 1.0) * rate == MAX_SAMPLE_RATE - rate;
    assert (256.0 - q) * rate == 256.0 * rate - MAX_SAMPLE_RATE;
    SignOfProduct(q - 1.0, rate);
    SignOfProduct(256.0 - q, rate);
  }

  lemma SignOfProduct(a: real, b: real)
    requires b > 0.0 && a * b >= 0.0
    ensures a >= 0.0
  {
  }

  // ---------------------------------------------------------------------
  // a_in_scan_start

  /**
   * a_in_scan_start(channel_mask, ...): ValueError for a mask of 0 or
   * above 3, before anything is sent; otherwise the mask goes to the
   * library as a ctypes c_ubyte (so a negative mask arrives as its value
   * modulo 256) and the library's result is mapped by StartAnswer. The
   * method also counts the mask's channels in a loop whose count it never
   * uses.
   */
  function ScanStart(h: Hat, channelMask: int, result: int): (c: Call<Byte, ()>)
    ensures Guarded(h).Some? ==> c == Call(None, Raised(Guarded(h).value))
    ensures h.initialized && (channelMask == 0 || channelMask > 3) ==> c == Call(None, Raised(ValueError))
    ensures c.sent.Some? <==> h.initialized && channelMask != 0 && channelMask <= 3
    ensures c.sent.Some? ==> c.sent.value as int == channelMask % 256 && c.outcome == PyScan.StartAnswer(h.address, result)
    ensures c.sent.Some? && channelMask > 0 ==> 0 < c.sent.value < 4
  {
    if Guarded(h).Some? then Call(None, Raised(Guarded(h).value))
    else if channelMask == 0 || channelMask > 3 then Call(None, Raised(ValueError))
    else Call(Some(ToByte(channelMask)), PyScan.StartAnswer(h.address, result))
  }

  // ---------------------------------------------------------------------
  // a_in_clock_config_read

  /** The namedtuple a_in_clock_config_read returns. */
  datatype ClockConfig = ClockConfig(clockSource: Byte, sampleRatePerChannel: real, synchronized: bool)

  /** a_in_clock_config_read: any failure is "Incorrect response."; synchronized is synced != 0. */
  function ClockConfigRead(h: Hat, result: int, source: Byte, rate: real, synced: Byte): (r: Outcome<ClockConfig>)
    ensures r.Returned? <==> h.initialized && result == Code(Success)
    ensures h.initialized && result != Code(Success) ==> r == Raised(HatError(h.address, INCORRECT_RESPONSE))
    ensures r.Returned? ==> r.value.clockSource == source && r.value.sampleRatePerChannel == rate
    ensures r.Returned? ==> (r.value.synchronized <==> synced != 0)
  {
    if Guarded(h).Some? then Raised(Guarded(h).value)
    else if result != Code(Success) then Raised(HatError(h.address, INCORRECT_RESPONSE))
    else Returned(ClockConfig(source, rate, synced != 0))
  }

  // ---------------------------------------------------------------------
  // firmware_version

  function HexDigit(d: nat): (c: char)
    requires d < 16
  {
    "0123456789ABCDEF"[d]
  }

  function HexValue(c: char): (d: int)
  {
    if '0' <= c <= '9' then c as int - '0' as int else c as int - 'A' as int + 10
  }

  lemma HexDigitValue(d: nat)
    requires d < 16
    ensures HexValue(HexDigit(d)) == d && HexDigit(d) != '.'
  {
    var digits := "0123456789ABCDEF";
    assert digits[0] == '0' && digits[1] == '1' && digits[2] == '2' && digits[3] == '3';
    assert digits[4] == '4' && digits[5] == '5' && digits[6] == '6' && digits[7] == '7';
    assert digits[8] == '8' && digits[9] == '9' && digits[10] == 'A' && digits[11] == 'B';
    assert digits[12] == 'C' && digits[13] == 'D' && digits[14] == 'E' && digits[15] == 'F';
  }

  /** "{:X}".format(n) for a byte: upper-case hex digits, no padding. */
  function Hex(n: nat): (s: string)
    requires n < 256
    ensures |s| == (if n < 16 then 1 else 2)
  {
    if n < 16 then [HexDigit(n)] else [HexDigit(n / 16), HexDigit(n % 16)]
  }

  /** "{:02X}".format(n) for a byte: two upper-case hex digits. */
  function Hex2(n: nat): (s: string)
    requires n < 256
    ensures |s| == 2
  {
    [HexDigit(n / 16), HexDigit(n % 16)]
  }

  /** The version string: the high byte in hex, a '.', then the low byte as two hex digits. */
  function VersionString(version: U16): (s: string)
  {
    Hex(version / 256) + "." + Hex2(version % 256)
  }

  /** Reads a version string back: the major part before the '.', the two digits after it. */
  function ParseVersion(s: string): (v: int)
    requires |s| >= 4
  {
    var major := s[..|s| - 3];
    var high := if |major| == 1 then HexValue(major[0]) else 16 * HexValue(major[0]) + HexValue(major[1]);
    256 * high + 16 * HexValue(s[|s| - 2]) + HexValue(s[|s| - 1])
  }

  /** The string has one or two digits, a '.', two digits, and gives the version back. */
  lemma VersionRoundTrip(version: U16)
    ensures var s := VersionString(version);
      (|s| == 4 || |s| == 5) && s[|s| - 3] == '.' &&
      (forall k :: 0 <= k < |s| && k != |s| - 3 ==> s[k] != '.') &&
      ParseVersion(s) == version
  {
    var hi, lo := version / 256, version % 256;
    HexDigitValue(hi / 16);
    HexDigitValue(hi % 16);
    HexDigitValue(lo / 16);
    HexDigitValue(lo % 16);
    if hi < 16 {
      HexDigitValue(hi);
    }
  }

  /** firmware_version: any failure is "Incorrect response."; otherwise the version string. */
  function FirmwareVersion(h: Hat, result: int, version: U16): (r: Outcome<string>)
    ensures r.Returned? <==> h.initialized && result == Code(Success)
    ensures h.initialized && result != Code(Success) ==> r == Raised(HatError(h.address, INCORRECT_RESPONSE))
    ensures r.Returned? ==> r.value == VersionString(version)
  {
    if Guarded(h).Some? then Raised(Guarded(h).value)
    else if result != Code(Success) then Raised(HatError(h.address, INCORRECT_RESPONSE))
    else Returned(VersionString(version))
  }
}
