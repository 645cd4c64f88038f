// The factory data of the MCC 134 (lib/mcc134.c): the serial number, the
// calibration date and the per-channel calibration coefficients read from
// the JSON document in the board's EEPROM, with the defaults used when the
// document is missing or incomplete.
//
// The JSON text is parsed by cJSON, which is not part of this model; the
// parser here walks the already-parsed tree.  Doubles are modelled as reals.

module Mcc134Factory {
  const NUM_TC_CHANNELS: nat := 4

  /** The serial buffer: eight characters and the terminating NUL. */
  const SERIAL_SIZE: nat := 8 + 1
  /** The date buffer: ten characters (2017-09-19) and the terminating NUL. */
  const CAL_DATE_SIZE: nat := 10 + 1

  const NUL: char := '\0'

  /** A parsed JSON value; an object keeps its members in document order. */
  datatype Json =
    | JNull
    | JBool(b: bool)
    | JNumber(n: real)
    | JString(s: string)
    | JArray(items: seq<Json>)
    | JObject(members: seq<Member>)

  datatype Member = Member(key: string, value: Json)

  /** mcc134FactoryData: the two character buffers and the coefficient arrays. */
  datatype FactoryData = FactoryData(serial: seq<char>, calDate: seq<char>, slopes: seq<real>, offsets: seq<real>)

  predicate Shaped(d: FactoryData)
  {
    |d.serial| == SERIAL_SIZE && |d.calDate| == CAL_DATE_SIZE &&
    |d.slopes| == NUM_TC_CHANNELS && |d.offsets| == NUM_TC_CHANNELS
  }

  // ---------------------------------------------------------------------
  // C strings

  /** The C string held by a buffer: the characters before the first NUL. */
  function CStr(s: seq<char>): (r: seq<char>)
    ensures |r| <= |s| && r == s[..|r|] && NUL !in r
    ensures |r| < |s| ==> s[|r|] == NUL
  {
    if |s| == 0 || s[0] == NUL then [] else [s[0]] + CStr(s[1..])
  }

  /** A string without NUL followed by anything reads as itself followed by what comes after. */
  lemma {:induction false} CStrAppend(c: seq<char>, t: seq<char>)
    requires NUL !in c
    ensures CStr(c + t) == c + CStr(t)
  {
    if |c| > 0 {
      var ct := c + t;
      assert ct[0] == c[0] && c[0] != NUL;
      assert ct[1..] == c[1..] + t;
      CStrAppend(c[1..], t);
      calc {
        CStr(ct);
        [ct[0]] + CStr(ct[1..]);
        [c[0]] + (c[1..] + CStr(t));
        { assert [c[0]] + c[1..] == c; }
        c + CStr(t);
      }
    } else {
      assert c + t == t;
    }
  }

  /**
   * strncpy(dst, src, n): the n characters written, the source string
   * padded with NULs, and no terminator when the source has n or more.
   */
  function StrNCopy(src: seq<char>, n: nat): (d: seq<char>)
    ensures |d| == n
    ensures |CStr(src)| < n ==> CStr(d) == CStr(src)
    ensures |CStr(src)| >= n ==> d == CStr(src)[..n] && NUL !in d
  {
    var c := CStr(src);
    if |c| >= n then c[..n]
    else
      var d := c + seq(n - |c|, _ => NUL);
      CStrAppend(c, seq(n - |c|, _ => NUL));
      d
  }

  // ---------------------------------------------------------------------
  // Defaults

  /** _set_defaults: serial 00000000, date 1970-01-01, slopes 1 and offsets 0. */
  function Defaults(): (d: FactoryData)
    ensures Shaped(d)
    ensures CStr(d.serial) == "00000000" && CStr(d.calDate) == "1970-01-01"
    ensures forall i :: 0 <= i < NUM_TC_CHANNELS ==> d.slopes[i] == 1.0 && d.offsets[i] == 0.0
  {
    CStrAppend("00000000", [NUL]);
    CStrAppend("1970-01-01", [NUL]);
    FactoryData("00000000" + [NUL], "1970-01-01" + [NUL], [1.0, 1.0, 1.0, 1.0], [0.0, 0.0, 0.0, 0.0])
  }

  /** The factory data of a freshly allocated (zeroed) device. */
  function Zeroed(): (d: FactoryData)
    ensures Shaped(d) && CStr(d.serial) == [] && CStr(d.calDate) == []
  {
    FactoryData(seq(SERIAL_SIZE, _ => NUL), seq(CAL_DATE_SIZE, _ => NUL), seq(NUM_TC_CHANNELS, _ => 0.0),
                seq(NUM_TC_CHANNELS, _ => 0.0))
  }

  // ---------------------------------------------------------------------
  // Coefficient arrays

  /** The numbers of an array, in order; other items are skipped. */
  function Numbers(items: seq<Json>): (nums: seq<real>)
    ensures |nums| <= |items|
  {
    if |items| == 0 then []
    else Numbers(items[..|items| - 1]) + (if items[|items| - 1].JNumber? then [items[|items| - 1].n] else [])
  }

  /**
   * The coefficients after an array was stored over them: the first four
   * numbers go to the first entries, the rest of the entries keep their
   * value.
   */
  function StoreFirst(dest: seq<real>, nums: seq<real>): (r: seq<real>)
    requires |dest| == NUM_TC_CHANNELS
    ensures |r| == NUM_TC_CHANNELS
    ensures forall i :: 0 <= i < |r| ==> r[i] == if i < |nums| then nums[i] else dest[i]
    ensures |nums| >= NUM_TC_CHANNELS ==> r == nums[..NUM_TC_CHANNELS]
  {
    if |nums| >= NUM_TC_CHANNELS then nums[..NUM_TC_CHANNELS] else nums + dest[|nums|..]
  }

  /** One more number changes the next entry while fewer than four were stored. */
  lemma StoreFirstStep(dest: seq<real>, nums: seq<real>, x: real)
    requires |dest| == NUM_TC_CHANNELS
    ensures |nums| < NUM_TC_CHANNELS ==> StoreFirst(dest, nums + [x]) == StoreFirst(dest, nums)[|nums| := x]
    ensures |nums| >= NUM_TC_CHANNELS ==> StoreFirst(dest, nums + [x]) == StoreFirst(dest, nums)
  {
    var a, b := StoreFirst(dest, nums + [x]), StoreFirst(dest, nums);
    if |nums| < NUM_TC_CHANNELS {
      assert forall i :: 0 <= i < NUM_TC_CHANNELS ==> a[i] == b[|nums| := x][i];
    } else {
      assert forall i :: 0 <= i < NUM_TC_CHANNELS ==> a[i] == b[i];
    }
  }

  /**
   * The inner loop over a "slopes" or "offsets" array: numbers are stored
   * while fewer than four were stored, and the count of stored numbers is
   * returned.
   */
  method StoreArray(items: seq<Json>, dest: seq<real>) returns (r: seq<real>, count: nat)
    requires |dest| == NUM_TC_CHANNELS
    ensures r == StoreFirst(dest, Numbers(items))
    ensures count == if |Numbers(items)| < NUM_TC_CHANNELS then |Numbers(items)| else NUM_TC_CHANNELS
  {
    r, count := dest, 0;
    var i := 0;
    while i < |items|
      invariant 0 <= i <= |items|
      invariant r == StoreFirst(dest, Numbers(items[..i]))
      invariant count == if |Numbers(items[..i])| < NUM_TC_CHANNELS then |Numbers(items[..i])| else NUM_TC_CHANNELS
    {
      assert items[..i + 1][..i] == items[..i];
      var item := items[i];
      if item.JNumber? {
        StoreFirstStep(dest, Numbers(items[..i]), item.n);
      }
      if item.JNumber? && count < NUM_TC_CHANNELS {
        r := r[count := item.n];
        count := count + 1;
      }
      i := i + 1;
    }
    assert items[..i] == items;
  }

  // ---------------------------------------------------------------------
  // The parser as a fold over the members

  /** The buffers being filled and the four "found" flags. */
  datatype ParseState = ParseState(data: FactoryData, gotSerial: bool, gotDate: bool, gotSlopes: bool, gotOffsets: bool)

  predicate IsSerial(m: Member) { m.key == "serial" && m.value.JString? }
  predicate IsCalibration(m: Member) { m.key == "calibration" && m.value.JObject? }
  predicate IsDate(m: Member) { m.key == "date" && m.value.JString? }
  predicate IsSlopes(m: Member) { m.key == "slopes" && m.value.JArray? }
  predicate IsOffsets(m: Member) { m.key == "offsets" && m.value.JArray? }

  /** An array member that supplies all four coefficients. */
  predicate Complete(m: Member)
  {
    m.value.JArray? && |Numbers(m.value.items)| >= NUM_TC_CHANNELS
  }

  /** One member of the calibration object. */
  function CalStep(st: ParseState, m: Member): (r: ParseState)
    requires Shaped(st.data)
    ensures Shaped(r.data) && r.gotSerial == st.gotSerial
    ensures r.gotDate == (st.gotDate || IsDate(m))
    ensures r.gotSlopes == (st.gotSlopes || (IsSlopes(m) && Complete(m)))
    ensures r.gotOffsets == (st.gotOffsets || (IsOffsets(m) && Complete(m)))
  {
    var d := st.data;
    if IsDate(m) then
      st.(data := d.(calDate := StrNCopy(m.value.s, CAL_DATE_SIZE - 1) + d.calDate[CAL_DATE_SIZE - 1..]), gotDate := true)
    else if IsSlopes(m) then
      var nums := Numbers(m.value.items);
      st.(data := d.(slopes := StoreFirst(d.slopes, nums)), gotSlopes := st.gotSlopes || |nums| >= NUM_TC_CHANNELS)
    else if IsOffsets(m) then
      var nums := Numbers(m.value.items);
      st.(data := d.(offsets := StoreFirst(d.offsets, nums)), gotOffsets := st.gotOffsets || |nums| >= NUM_TC_CHANNELS)
    else st
  }

  /** The calibration members taken in order. */
  function CalFold(ms: seq<Member>, st: ParseState): (r: ParseState)
    requires Shaped(st.data)
    ensures Shaped(r.data)
  {
    if |ms| == 0 then st else CalStep(CalFold(ms[..|ms| - 1], st), ms[|ms| - 1])
  }

  /**
   * One member of the root object.  The serial is copied with room for
   * its terminator (SERIAL_SIZE - 1 characters), as the date is; see
   * SerialCopyAsWritten for the copy as the source writes it.
   */
  function RootStep(st: ParseState, m: Member): (r: ParseState)
    requires Shaped(st.data)
    ensures Shaped(r.data)
  {
    var d := st.data;
    if IsSerial(m) then
      st.(data := d.(serial := StrNCopy(m.value.s, SERIAL_SIZE - 1) + d.serial[SERIAL_SIZE - 1..]), gotSerial := true)
    else if IsCalibration(m) then CalFold(m.value.members, st)
    else st
  }

  function RootFold(ms: seq<Member>, st: ParseState): (r: ParseState)
    requires Shaped(st.data)
    ensures Shaped(r.data)
  {
    if |ms| == 0 then st else RootStep(RootFold(ms[..|ms| - 1], st), ms[|ms| - 1])
  }

  function Start(d: FactoryData): ParseState
  {
    ParseState(d, false, false, false, false)
  }

  /**
   * _parse_factory_data: the root must be an object with members; it
   * succeeds when the four flags are set, and the buffers are written
   * whether or not it succeeds.
   */
  function ParseSpec(root: Json, d: FactoryData): (r: (bool, FactoryData))
    requires Shaped(d)
    ensures Shaped(r.1)
  {
    if !root.JObject? || |root.members| == 0 then (false, d)
    else
      var st := RootFold(root.members, Start(d));
      (st.gotSerial && st.gotDate && st.gotSlopes && st.gotOffsets, st.data)
  }

  // ---------------------------------------------------------------------
  // The parser as the source writes it: loops over the member lists

  /** The loop over the members of a calibration object. */
  method ParseCalibration(ms: seq<Member>, st: ParseState) returns (r: ParseState)
    requires Shaped(st.data)
    ensures r == CalFold(ms, st)
  {
    r := st;
    var i := 0;
    while i < |ms|
      invariant 0 <= i <= |ms|
      invariant r == CalFold(ms[..i], st)
    {
      assert ms[..i + 1][..i] == ms[..i];
      var m := ms[i];
      var d := r.data;
      if m.key == "date" && m.value.JString? {
        r := r.(data := d.(calDate := StrNCopy(m.value.s, CAL_DATE_SIZE - 1) + d.calDate[CAL_DATE_SIZE - 1..]), gotDate := true);
      } else if m.key == "slopes" && m.value.JArray? {
        var slopes, count := StoreArray(m.value.items, d.slopes);
        r := r.(data := d.(slopes := slopes));
        if count == NUM_TC_CHANNELS {
          r := r.(gotSlopes := true);
        }
      } else if m.key == "offsets" && m.value.JArray? {
        var offsets, count := StoreArray(m.value.items, d.offsets);
        r := r.(data := d.(offsets := offsets));
        if count == NUM_TC_CHANNELS {
          r := r.(gotOffsets := true);
        }
      }
      i := i + 1;
    }
    assert ms[..i] == ms;
  }

  /** _parse_factory_data over the root's member list. */
  method ParseFactoryData(root: Json, d: FactoryData) returns (ok: bool, parsed: FactoryData)
    requires Shaped(d)
    ensures (ok, parsed) == ParseSpec(root, d)
  {
    if !root.JObject? || |root.members| == 0 {
      return false, d;
    }
    var ms := root.members;
    var st := Start(d);
    var i := 0;
    while i < |ms|
      invariant 0 <= i <= |ms|
      invariant st == RootFold(ms[..i], Start(d))
    {
      assert ms[..i + 1][..i] == ms[..i];
      var m := ms[i];
      var data := st.data;
      if m.key == "serial" && m.value.JString? {
        st := st.(data := data.(serial := StrNCopy(m.value.s, SERIAL_SIZE - 1) + data.serial[SERIAL_SIZE - 1..]), gotSerial := true);
      } else if m.key == "calibration" && m.value.JObject? {
        st := ParseCalibration(m.value.members, st);
      }
      i := i + 1;
    }
    assert ms[..i] == ms;
    ok, parsed := st.gotSerial && st.gotDate && st.gotSlopes && st.gotOffsets, st.data;
  }

  // ---------------------------------------------------------------------
  // What the parser accepts

  predicate HasSerial(ms: seq<Member>)
  {
    exists i :: 0 <= i < |ms| && IsSerial(ms[i])
  }

  predicate HasDate(ms: seq<Member>)
  {
    exists i, j :: 0 <= i < |ms| && IsCalibration(ms[i]) && 0 <= j < |ms[i].value.members| && IsDate(ms[i].value.members[j])
  }

  predicate HasSlopes(ms: seq<Member>)
  {
    exists i, j :: 0 <= i < |ms| && IsCalibration(ms[i]) && 0 <= j < |ms[i].value.members| &&
      IsSlopes(ms[i].value.members[j]) && Complete(ms[i].value.members[j])
  }

  predicate HasOffsets(ms: seq<Member>)
  {
    exists i, j :: 0 <= i < |ms| && IsCalibration(ms[i]) && 0 <= j < |ms[i].value.members| &&
      IsOffsets(ms[i].value.members[j]) && Complete(ms[i].value.members[j])
  }

  /** The flags after a calibration object: each set before, or set by one of its members. */
  lemma {:induction false} CalFoldFlags(ms: seq<Member>, st: ParseState)
    requires Shaped(st.data)
    ensures var r := CalFold(ms, st);
      r.gotSerial == st.gotSerial &&
      r.gotDate == (st.gotDate || exists j :: 0 <= j < |ms| && IsDate(ms[j])) &&
      r.gotSlopes == (st.gotSlopes || exists j :: 0 <= j < |ms| && IsSlopes(ms[j]) && Complete(ms[j])) &&
      r.gotOffsets == (st.gotOffsets || exists j :: 0 <= j < |ms| && IsOffsets(ms[j]) && Complete(ms[j]))
  {
    if |ms| > 0 {
      var init := ms[..|ms| - 1];
      CalFoldFlags(init, st);
      assert forall j :: 0 <= j < |init| ==> init[j] == ms[j];
    }
  }

  /** The flags after the root members: each set by some member of the document. */
  lemma {:induction false} RootFoldFlags(ms: seq<Member>, st: ParseState)
    requires Shaped(st.data)
    ensures var r := RootFold(ms, st);
      r.gotSerial == (st.gotSerial || HasSerial(ms)) &&
      r.gotDate == (st.gotDate || HasDate(ms)) &&
      r.gotSlopes == (st.gotSlopes || HasSlopes(ms)) &&
      r.gotOffsets == (st.gotOffsets || HasOffsets(ms))
  {
    if |ms| > 0 {
      var init, m := ms[..|ms| - 1], ms[|ms| - 1];
      RootFoldFlags(init, st);
      HasSplit(ms);
      if IsCalibration(m) {
        CalFoldFlags(m.value.members, RootFold(init, st));
      }
    }
  }

  /** What the last root member adds to each of the four existence facts. */
  lemma HasSplit(ms: seq<Member>)
    requires |ms| > 0
    ensures var init, m := ms[..|ms| - 1], ms[|ms| - 1];
      (HasSerial(ms) == (HasSerial(init) || IsSerial(m))) &&
      (HasDate(ms) == (HasDate(init) || (IsCalibration(m) && exists j :: 0 <= j < |m.value.members| && IsDate(m.value.members[j])))) &&
      (HasSlopes(ms) == (HasSlopes(init) || (IsCalibration(m) &&
         exists j :: 0 <= j < |m.value.members| && IsSlopes(m.value.members[j]) && Complete(m.value.members[j])))) &&
      (HasOffsets(ms) == (HasOffsets(init) || (IsCalibration(m) &&
         exists j :: 0 <= j < |m.value.members| && IsOffsets(m.value.members[j]) && Complete(m.value.members[j]))))
  {
    var init := ms[..|ms| - 1];
    assert forall i :: 0 <= i < |init| ==> init[i] == ms[i];
  }

  /**
   * The parser succeeds exactly when the root is an object with a string
   * "serial" and calibration objects that hold a string "date", a
   * "slopes" array with at least four numbers and an "offsets" array with
   * at least four numbers.
   */
  lemma ParseAccepts(root: Json, d: FactoryData)
    requires Shaped(d)
    ensures ParseSpec(root, d).0 <==>
      root.JObject? && HasSerial(root.members) && HasDate(root.members) &&
      HasSlopes(root.members) && HasOffsets(root.members)
  {
    if root.JObject? {
      RootFoldFlags(root.members, Start(d));
    }
  }

  /** The document the factory writes: one serial, one calibration object with date, slopes and offsets. */
  function Canonical(serial: string, date: string, slopes: seq<Json>, offsets: seq<Json>): Json
  {
    JObject([Member("serial", JString(serial)),
             Member("calibration", JObject([Member("date", JString(date)), Member("slopes", JArray(slopes)),
                                             Member("offsets", JArray(offsets))]))])
  }

  /**
   * For the factory's document the parser stores the serial and the date
   * (truncated to their buffers) and the first four numbers of each array,
   * in order, and succeeds when both arrays hold four numbers.
   */
  lemma ParseCanonical(serial: string, date: string, slopes: seq<Json>, offsets: seq<Json>)
    ensures var (ok, d) := ParseSpec(Canonical(serial, date, slopes, offsets), Zeroed());
      (ok <==> |Numbers(slopes)| >= NUM_TC_CHANNELS && |Numbers(offsets)| >= NUM_TC_CHANNELS) &&
      CStr(d.serial) == (if |CStr(serial)| < SERIAL_SIZE then CStr(serial) else CStr(serial)[..SERIAL_SIZE - 1]) &&
      CStr(d.calDate) == (if |CStr(date)| < CAL_DATE_SIZE then CStr(date) else CStr(date)[..CAL_DATE_SIZE - 1]) &&
      (ok ==> d.slopes == Numbers(slopes)[..NUM_TC_CHANNELS] && d.offsets == Numbers(offsets)[..NUM_TC_CHANNELS])
  {
    var root := Canonical(serial, date, slopes, offsets);
    var ms := root.members;
    var cal := ms[1].value.members;
    var z := Zeroed();
    var s1 := RootStep(Start(z), ms[0]);
    assert RootFold(ms[..1], Start(z)) == s1 by {
      assert ms[..1][..0] == [];
    }
    assert ms[..2] == ms;
    var c1 := CalStep(s1, cal[0]);
    var c2 := CalStep(c1, cal[1]);
    var c3 := CalStep(c2, cal[2]);
    assert CalFold(cal[..1], s1) == c1 by {
      assert cal[..1][..0] == [];
    }
    assert CalFold(cal[..2], s1) == c2 by {
      assert cal[..2][..1] == cal[..1];
    }
    assert CalFold(cal, s1) == c3 by {
      assert cal[..3] == cal;
      assert cal[..3][..2] == cal[..2];
    }
    assert RootFold(ms, Start(z)) == c3 by {
      assert RootFold(ms, Start(z)) == RootStep(s1, ms[1]);
    }
    assert c3.data == c2.data.(offsets := StoreFirst(z.offsets, Numbers(offsets)));
    assert c2.data == c1.data.(slopes := StoreFirst(z.slopes, Numbers(slopes)));
    assert c1.data.serial == s1.data.serial == StrNCopy(serial, SERIAL_SIZE - 1) + z.serial[SERIAL_SIZE - 1..];
    assert c3.gotSerial && c3.gotDate;
    assert c3.gotSlopes == (|Numbers(slopes)| >= NUM_TC_CHANNELS);
    assert c3.gotOffsets == (|Numbers(offsets)| >= NUM_TC_CHANNELS);
    SerialBuffer(serial, z.serial);
    DateBuffer(date, c1.data.calDate, s1.data.calDate);
  }

  /** The serial buffer holds the serial truncated to eight characters. */
  lemma SerialBuffer(s: string, old_: seq<char>)
    requires |old_| == SERIAL_SIZE && old_[SERIAL_SIZE - 1] == NUL
    ensures CStr(StrNCopy(s, SERIAL_SIZE - 1) + old_[SERIAL_SIZE - 1..]) ==
      if |CStr(s)| < SERIAL_SIZE then CStr(s) else CStr(s)[..SERIAL_SIZE - 1]
  {
    var c := StrNCopy(s, SERIAL_SIZE - 1);
    if |CStr(s)| >= SERIAL_SIZE - 1 {
      CStrAppend(c, old_[SERIAL_SIZE - 1..]);
      assert CStr(old_[SERIAL_SIZE - 1..]) == [];
    } else {
      var k := |CStr(s)|;
      assert c[k] == NUL;
      assert c == CStr(s) + c[k..];
      CStrAppend(CStr(s), c[k..] + old_[SERIAL_SIZE - 1..]);
      assert c + old_[SERIAL_SIZE - 1..] == CStr(s) + (c[k..] + old_[SERIAL_SIZE - 1..]);
    }
  }

  /** The date buffer holds the date truncated to ten characters. */
  lemma DateBuffer(s: string, written: seq<char>, old_: seq<char>)
    requires |old_| == CAL_DATE_SIZE && old_[CAL_DATE_SIZE - 1] == NUL
    requires written == StrNCopy(s, CAL_DATE_SIZE - 1) + old_[CAL_DATE_SIZE - 1..]
    ensures CStr(written) == if |CStr(s)| < CAL_DATE_SIZE then CStr(s) else CStr(s)[..CAL_DATE_SIZE - 1]
  {
    var c := StrNCopy(s, CAL_DATE_SIZE - 1);
    if |CStr(s)| >= CAL_DATE_SIZE - 1 {
      CStrAppend(c, old_[CAL_DATE_SIZE - 1..]);
      assert CStr(old_[CAL_DATE_SIZE - 1..]) == [];
    } else {
      var k := |CStr(s)|;
      assert c[k] == NUL;
      assert c == CStr(s) + c[k..];
      CStrAppend(CStr(s), c[k..] + old_[CAL_DATE_SIZE - 1..]);
      assert c + old_[CAL_DATE_SIZE - 1..] == CStr(s) + (c[k..] + old_[CAL_DATE_SIZE - 1..]);
    }
  }

  // ---------------------------------------------------------------------
  // The factory data an open device ends up with

  /** What open finds in the EEPROM's custom data. */
  datatype CustomData = NoCustomData | Unparsable | Parsed(root: Json)

  /**
   * open: an empty EEPROM, a document cJSON cannot parse and a document
   * the parser rejects all give the defaults; otherwise the parsed data
   * over the zeroed buffers.
   */
  function OpenFactoryData(custom: CustomData): (d: FactoryData)
    ensures Shaped(d)
    ensures d != Defaults() ==> custom.Parsed? && ParseSpec(custom.root, Zeroed()).0
    ensures custom.Parsed? && ParseSpec(custom.root, Zeroed()).0 ==> d == ParseSpec(custom.root, Zeroed()).1
  {
    if custom.Parsed? then
      var (ok, d) := ParseSpec(custom.root, Zeroed());
      if ok then d else Defaults()
    else Defaults()
  }

  /** The last byte of each character buffer is NUL. */
  predicate Terminated(d: FactoryData)
    requires Shaped(d)
  {
    d.serial[SERIAL_SIZE - 1] == NUL && d.calDate[CAL_DATE_SIZE - 1] == NUL
  }

  /** A terminated buffer holds a string shorter than the buffer. */
  lemma TerminatedShort(s: seq<char>)
    requires |s| > 0 && s[|s| - 1] == NUL
    ensures |CStr(s)| < |s|
  {
    assert s[..|s|] == s;
  }

  /** An open device's serial and date buffers are always terminated. */
  lemma OpenFactoryTerminated(custom: CustomData)
    ensures Terminated(OpenFactoryData(custom))
  {
    if custom.Parsed? && ParseSpec(custom.root, Zeroed()).0 {
      RootTerminated(custom.root.members, Start(Zeroed()));
    }
  }

  /** The last byte of each buffer stays NUL through the parse. */
  lemma {:induction false} RootTerminated(ms: seq<Member>, st: ParseState)
    requires Shaped(st.data) && st.data.serial[SERIAL_SIZE - 1] == NUL && st.data.calDate[CAL_DATE_SIZE - 1] == NUL
    ensures var r := RootFold(ms, st).data;
      r.serial[SERIAL_SIZE - 1] == NUL && r.calDate[CAL_DATE_SIZE - 1] == NUL
  {
    if |ms| > 0 {
      var init, m := ms[..|ms| - 1], ms[|ms| - 1];
      RootTerminated(init, st);
      if IsCalibration(m) {
        CalTerminated(m.value.members, RootFold(init, st));
      }
    }
  }

  lemma {:induction false} CalTerminated(ms: seq<Member>, st: ParseState)
    requires Shaped(st.data) && st.data.serial[SERIAL_SIZE - 1] == NUL && st.data.calDate[CAL_DATE_SIZE - 1] == NUL
    ensures var r := CalFold(ms, st).data;
      r.serial[SERIAL_SIZE - 1] == NUL && r.calDate[CAL_DATE_SIZE - 1] == NUL
  {
    if |ms| > 0 {
      CalTerminated(ms[..|ms| - 1], st);
    }
  }

  // ---------------------------------------------------------------------
  // The serial copy as the source writes it

  /**
   * strncpy(serial, value, SERIAL_SIZE): all nine bytes are written, so a
   * serial of nine or more characters leaves the buffer unterminated.
   */
  function SerialCopyAsWritten(s: string): (b: seq<char>)
    ensures |b| == SERIAL_SIZE
  {
    StrNCopy(s, SERIAL_SIZE)
  }

  /**
   * mcc134_serial's strcpy then reads on past the serial buffer, into the
   * date buffer that follows it in the structure.
   */
  function SerialReadAsWritten(d: FactoryData): (s: string)
    ensures |s| <= |d.serial| + |d.calDate|
  {
    CStr(d.serial + d.calDate)
  }

  /**
   * A serial of nine or more characters reads back as its first nine
   * characters followed by the calibration date.
   */
  lemma LongSerialRunsIntoDate(serial: string, date: string, slopes: seq<real>, offsets: seq<real>)
    requires NUL !in serial && |serial| >= SERIAL_SIZE && NUL !in date && |date| < CAL_DATE_SIZE
    ensures var d := FactoryData(SerialCopyAsWritten(serial), date + seq(CAL_DATE_SIZE - |date|, _ => NUL), slopes, offsets);
      SerialReadAsWritten(d) == serial[..SERIAL_SIZE] + date
  {
    CStrAppend(serial, []);
    assert serial + [] == serial;
    var b := SerialCopyAsWritten(serial);
    assert b == serial[..SERIAL_SIZE];
    var pad := seq(CAL_DATE_SIZE - |date|, _ => NUL);
    assert NUL !in b + date;
    CStrAppend(b + date, pad);
    assert b + (date + pad) == (b + date) + pad;
    assert CStr(pad) == [];
  }
}
