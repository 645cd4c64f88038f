// The shared helpers of the C library (lib/util.c): the result-code
// messages, the absolute time difference used by every timeout, the board
// lock's address check, the interrupt wait's result mapping, and the
// acceptance rules hat_list and _hat_info apply to the HAT ID EEPROM
// contents (the header, then the atoms of the Raspberry Pi HAT EEPROM
// format).
//
// Files are outside the model: what each read returns is given as a
// value, and a read that comes back short is a None or the end of the
// atom sequence.  Strings are compared as wholes, so a vendor string is
// taken to hold no NUL before its end.

module Util {
  import opened DaqHats

  // ---------------------------------------------------------------------
  // Result-code messages

  const UNDEFINED_ERROR_MESSAGE: string := "An unknown error occurred."
  const HAT_ERROR_MESSAGES: seq<string> := [
    "Success.",
    "An incorrect parameter was passed to the function.",
    "The device is busy.",
    "There was a timeout accessing a resource.",
    "There was a timeout while obtaining a resource lock.",
    "The device at the specified address is not the correct type.",
    "A needed resource was not available.",
    "Could not communicate with the device."]

  /** hat_error_message: codes 0 down to -7 have their fixed message; every other code the unknown one. */
  function ErrorMessage(result: int): (m: string)
    ensures -7 <= result <= 0 ==> m == HAT_ERROR_MESSAGES[-result]
    ensures !(-7 <= result <= 0) ==> m == UNDEFINED_ERROR_MESSAGE
  {
    if result == Code(Success) then HAT_ERROR_MESSAGES[0]
    else if result == Code(BadParameter) then HAT_ERROR_MESSAGES[1]
    else if result == Code(Busy) then HAT_ERROR_MESSAGES[2]
    else if result == Code(Timeout) then HAT_ERROR_MESSAGES[3]
    else if result == Code(LockTimeout) then HAT_ERROR_MESSAGES[4]
    else if result == Code(InvalidDevice) then HAT_ERROR_MESSAGES[5]
    else if result == Code(ResourceUnavail) then HAT_ERROR_MESSAGES[6]
    else if result == Code(CommsFailure) then HAT_ERROR_MESSAGES[7]
    else UNDEFINED_ERROR_MESSAGE
  }

  /**
   * Each result code other than RESULT_UNDEFINED has a message of its own,
   * so the message tells the code back; RESULT_UNDEFINED and every unknown
   * code share the unknown message.
   */
  lemma ErrorMessagesIdentify(r: ResultCode, s: ResultCode, c: int)
    requires FromCode(c).None?
    ensures r != Undefined && s != Undefined && r != s ==> ErrorMessage(Code(r)) != ErrorMessage(Code(s))
    ensures r != Undefined ==> ErrorMessage(Code(r)) != UNDEFINED_ERROR_MESSAGE
    ensures ErrorMessage(Code(Undefined)) == UNDEFINED_ERROR_MESSAGE == ErrorMessage(c)
  {
    assert !(-7 <= c <= 0);
    if r != Undefined {
      var i := -Code(r);
      var j := if s != Undefined && r != s then -Code(s) else -1;
      assert ErrorMessage(Code(r)) == HAT_ERROR_MESSAGES[i];
      MessagesDistinct(i, j);
      if j >= 0 {
        assert ErrorMessage(Code(s)) == HAT_ERROR_MESSAGES[j];
      }
    }
  }

  /** The messages at two different indexes differ, and none is the unknown message. */
  lemma MessagesDistinct(i: int, j: int)
    requires 0 <= i < 8 && -1 <= j < 8 && i != j
    ensures j >= 0 ==> HAT_ERROR_MESSAGES[i] != HAT_ERROR_MESSAGES[j]
    ensures HAT_ERROR_MESSAGES[i] != UNDEFINED_ERROR_MESSAGE
  {
    // The nine messages differ in length.
    var ms := HAT_ERROR_MESSAGES;
    var lengths := [8, 50, 19, 41, 52, 60, 36, 38];
    assert |ms[0]| == 8 && |ms[1]| == 50 && |ms[2]| == 19 && |ms[3]| == 41;
    assert |ms[4]| == 52 && |ms[5]| == 60 && |ms[6]| == 36 && |ms[7]| == 38;
    assert |UNDEFINED_ERROR_MESSAGE| == 26;
    assert |ms[i]| == lengths[i];
    if j >= 0 {
      assert |ms[j]| == lengths[j];
    }
  }

  // ---------------------------------------------------------------------
  // Time differences

  datatype TimeSpec = TimeSpec(sec: nat, nsec: nat)

  /** A time in whole microseconds, as _difftime_us computes it (nanoseconds divided down). */
  function Micros(t: TimeSpec): nat
  {
    t.sec * 1000000 + t.nsec / 1000
  }

  /** _difftime_us: the absolute difference in microseconds, 0 when either time is missing. */
  function DiffTimeUs(start: Option<TimeSpec>, end: Option<TimeSpec>): (d: nat)
    ensures start.None? || end.None? ==> d == 0
    ensures start.Some? && end.Some? ==>
      (Micros(end.value) >= Micros(start.value) ==> Micros(start.value) + d == Micros(end.value)) &&
      (Micros(end.value) <= Micros(start.value) ==> Micros(end.value) + d == Micros(start.value))
  {
    if start.None? || end.None? then 0
    else
      var diff := Micros(end.value) - Micros(start.value);
      if diff < 0 then -diff else diff
  }

  /** The difference does not depend on the order of the two times, and is 0 between a time and itself. */
  lemma DiffTimeSymmetric(a: Option<TimeSpec>, b: Option<TimeSpec>)
    ensures DiffTimeUs(a, b) == DiffTimeUs(b, a)
    ensures a.Some? ==> DiffTimeUs(a, a) == 0
  {
  }

  /** The difference obeys the triangle inequality, so a timeout measured in steps is never underestimated. */
  lemma DiffTimeTriangle(a: TimeSpec, b: TimeSpec, c: TimeSpec)
    ensures DiffTimeUs(Some(a), Some(c)) <= DiffTimeUs(Some(a), Some(b)) + DiffTimeUs(Some(b), Some(c))
  {
  }

  // ---------------------------------------------------------------------
  // Board lock and interrupts

  /** _obtain_board_lock: an address beyond the last board is refused; otherwise a lock or a timeout. */
  function ObtainBoardLock(address: nat, locked: bool): (r: ResultCode)
    ensures r == Success <==> address < MAX_NUMBER_HATS && locked
    ensures r != Success ==> r == (if address >= MAX_NUMBER_HATS then BadParameter else Timeout)
  {
    if address >= MAX_NUMBER_HATS then BadParameter
    else if !locked then Timeout
    else Success
  }

  /** hat_wait_for_interrupt: the GPIO wait's -1 is an error, 0 a timeout, anything else success. */
  function WaitForInterrupt(gpioResult: int): (r: ResultCode)
    ensures r == Undefined <==> gpioResult == -1
    ensures r == Timeout <==> gpioResult == 0
    ensures r == Success <==> gpioResult != -1 && gpioResult != 0
  {
    if gpioResult == -1 then Undefined
    else if gpioResult == 0 then Timeout
    else Success
  }

  // ---------------------------------------------------------------------
  // HAT ID EEPROM acceptance

  const SIGNATURE: nat := 0x69502D52
  const FORMAT_VERSION: nat := 0x01
  const ATOM_VENDOR_TYPE: nat := 0x0001
  const ATOM_CUSTOM_TYPE: nat := 0x0004
  const CRC_SIZE: nat := 2
  const PRODUCT_NAME_SIZE: nat := 256
  const VENDOR_NAME: string := "Measurement Computing Corp."

  /** An entry of the board list (struct HatInfo); board 0's version and product name may be unread. */
  datatype HatInfo = HatInfo(address: nat, id: U16, version: Option<U16>, productName: Option<string>)

  /** The vendor information atom: vendor and product strings, product ID and version. */
  datatype VendorInfo = VendorInfo(vendor: string, pid: U16, pver: U16, product: string)

  /** The EEPROM header. */
  datatype Header = Header(signature: nat, formatVersion: nat, numatoms: nat)

  /**
   * What hat_list reads from an EEPROM image: the header, the type of the
   * first atom (None for a short read), and the vendor information with
   * its strings (None for a short read).
   */
  datatype ListImage = ListImage(header: Header, firstAtomType: Option<nat>, vendorInfo: Option<VendorInfo>)

  /** Board 0's information from the device tree: vendor, and the product ID, version and name when readable. */
  datatype DeviceTreeHat = DeviceTreeHat(vendor: string, productId: Option<U16>, version: Option<U16>, product: Option<string>)

  predicate HeaderValid(h: Header)
  {
    h.signature == SIGNATURE && h.formatVersion == FORMAT_VERSION && h.numatoms >= 1
  }

  predicate IdMatches(filter: U16, id: U16)
  {
    filter == 0 || filter == id
  }

  /** strncpy of the product string into 256 bytes, leaving room for the terminator. */
  function ProductName(product: string): (p: string)
    ensures |p| < PRODUCT_NAME_SIZE && |p| <= |product| && p == product[..|p|]
    ensures |product| < PRODUCT_NAME_SIZE ==> p == product
  {
    if |product| < PRODUCT_NAME_SIZE then product else product[..PRODUCT_NAME_SIZE - 1]
  }

  /** The rule hat_list applies to boards 1 to 7. */
  predicate ListAccepts(image: ListImage, filter: U16)
  {
    HeaderValid(image.header) &&
    image.firstAtomType == Some(ATOM_VENDOR_TYPE) &&
    image.vendorInfo.Some? && image.vendorInfo.value.vendor == VENDOR_NAME &&
    IdMatches(filter, image.vendorInfo.value.pid)
  }

  /** The rule hat_list applies to board 0. */
  predicate Board0Accepts(hat: DeviceTreeHat, filter: U16)
  {
    hat.vendor == VENDOR_NAME && hat.productId.Some? && IdMatches(filter, hat.productId.value)
  }

  function Board0Entry(hat: DeviceTreeHat): (e: HatInfo)
    requires hat.productId.Some?
    ensures e.address == 0
  {
    HatInfo(0, hat.productId.value, hat.version, if hat.version.Some? then hat.product else None)
  }

  function ImageEntry(address: nat, v: VendorInfo): (e: HatInfo)
    ensures e.address == address && e.id == v.pid
  {
    HatInfo(address, v.pid, Some(v.pver), Some(ProductName(v.product)))
  }

  /** The entries of boards 1 to n - 1, in address order. */
  function ListUpTo(images: seq<Option<ListImage>>, filter: U16, n: nat): (l: seq<HatInfo>)
    requires |images| == MAX_NUMBER_HATS && 1 <= n <= MAX_NUMBER_HATS
    ensures |l| < n
    decreases n
  {
    if n == 1 then []
    else
      var a := n - 1;
      ListUpTo(images, filter, a) +
        (if images[a].Some? && ListAccepts(images[a].value, filter)
         then [ImageEntry(a, images[a].value.vendorInfo.value)] else [])
  }

  /** The board 0 part of the list. */
  function Board0Part(filter: U16, board0: Option<DeviceTreeHat>): (l: seq<HatInfo>)
    ensures |l| <= 1 && forall k :: 0 <= k < |l| ==> l[k].address == 0
  {
    if board0.Some? && Board0Accepts(board0.value, filter) then [Board0Entry(board0.value)] else []
  }

  /** hat_list: board 0 from the device tree, then boards 1 to 7 from their EEPROM images. */
  function HatListSpec(filter: U16, board0: Option<DeviceTreeHat>, images: seq<Option<ListImage>>): (l: seq<HatInfo>)
    requires |images| == MAX_NUMBER_HATS
    ensures |l| <= MAX_NUMBER_HATS
  {
    Board0Part(filter, board0) + ListUpTo(images, filter, MAX_NUMBER_HATS)
  }

  /** Board a has an entry in l. */
  predicate Listed(l: seq<HatInfo>, a: nat)
  {
    exists k :: 0 <= k < |l| && l[k].address == a
  }

  predicate AddressOrdered(l: seq<HatInfo>)
  {
    forall j, k :: 0 <= j < k < |l| ==> l[j].address < l[k].address
  }

  /** An entry of head + tail is an entry of one of them. */
  lemma ListedConcat(head: seq<HatInfo>, tail: seq<HatInfo>, a: nat)
    ensures Listed(head + tail, a) <==> Listed(head, a) || Listed(tail, a)
  {
    var l := head + tail;
    if Listed(l, a) {
      var k :| 0 <= k < |l| && l[k].address == a;
      if k >= |head| {
        assert tail[k - |head|].address == a;
      }
    }
    if Listed(tail, a) {
      var k :| 0 <= k < |tail| && tail[k].address == a;
      assert l[k + |head|].address == a;
    }
    if Listed(head, a) {
      var k :| 0 <= k < |head| && head[k].address == a;
      assert l[k].address == a;
    }
  }

  /** A board from 1 to n - 1 is listed exactly when its image passes the rule; entries keep address order. */
  lemma {:induction false} ListUpToSpec(images: seq<Option<ListImage>>, filter: U16, n: nat)
    requires |images| == MAX_NUMBER_HATS && 1 <= n <= MAX_NUMBER_HATS
    ensures forall k :: 0 <= k < |ListUpTo(images, filter, n)| ==> 1 <= ListUpTo(images, filter, n)[k].address < n
    ensures AddressOrdered(ListUpTo(images, filter, n))
    ensures forall a :: 1 <= a < n ==>
      (Listed(ListUpTo(images, filter, n), a) <==> images[a].Some? && ListAccepts(images[a].value, filter))
    decreases n
  {
    if n > 1 {
      ListUpToSpec(images, filter, n - 1);
      var prev := ListUpTo(images, filter, n - 1);
      var last := if images[n - 1].Some? && ListAccepts(images[n - 1].value, filter)
                  then [ImageEntry(n - 1, images[n - 1].value.vendorInfo.value)] else [];
      assert ListUpTo(images, filter, n) == prev + last;
      ListAppendSpec(images, filter, prev, last, n - 1);
    }
  }

  /** Appending board b's entry, if any, to the entries of boards 1 to b - 1. */
  lemma ListAppendSpec(images: seq<Option<ListImage>>, filter: U16, prev: seq<HatInfo>, last: seq<HatInfo>, b: nat)
    requires |images| == MAX_NUMBER_HATS && 1 <= b < MAX_NUMBER_HATS
    requires forall k :: 0 <= k < |prev| ==> 1 <= prev[k].address < b
    requires AddressOrdered(prev)
    requires forall a :: 1 <= a < b ==> (Listed(prev, a) <==> images[a].Some? && ListAccepts(images[a].value, filter))
    requires last == if images[b].Some? && ListAccepts(images[b].value, filter)
                     then [ImageEntry(b, images[b].value.vendorInfo.value)] else []
    ensures forall k :: 0 <= k < |prev + last| ==> 1 <= (prev + last)[k].address < b + 1
    ensures AddressOrdered(prev + last)
    ensures forall a :: 1 <= a < b + 1 ==>
      (Listed(prev + last, a) <==> images[a].Some? && ListAccepts(images[a].value, filter))
  {
    assert !Listed(prev, b);
    forall a | 1 <= a < b + 1
      ensures Listed(prev + last, a) <==> images[a].Some? && ListAccepts(images[a].value, filter)
    {
      ListedConcat(prev, last, a);
      if a < b {
        assert !Listed(last, a) by {
          if |last| == 1 {
            assert last[0].address == b;
          }
        }
      } else if |last| == 1 {
        assert last[0].address == a;
      }
    }
  }

  /**
   * hat_list over the library's reads.  The EEPROM image of board 0 is
   * never consulted, so images[0] is unused.
   */
  method HatList(filter: U16, board0: Option<DeviceTreeHat>, images: seq<Option<ListImage>>) returns (list: seq<HatInfo>)
    requires |images| == MAX_NUMBER_HATS
    ensures list == HatListSpec(filter, board0, images)
  {
    list := Board0List(filter, board0);
    ghost var head := list;
    for address := 1 to MAX_NUMBER_HATS
      invariant list == head + ListUpTo(images, filter, address)
    {
      var entry := ListEntry(address, images[address], filter);
      assert ListUpTo(images, filter, address + 1) == ListUpTo(images, filter, address) + entry;
      list := list + entry;
    }
  }

  /** The start of hat_list: board 0's entry from the device tree, when it passes the rule. */
  method Board0List(filter: U16, board0: Option<DeviceTreeHat>) returns (list: seq<HatInfo>)
    ensures list == Board0Part(filter, board0)
  {
    list := [];
    if board0.Some? && board0.value.vendor == VENDOR_NAME && board0.value.productId.Some? {
      var id := board0.value.productId.value;
      if filter == 0 || filter == id {
        var version := board0.value.version;
        var product := if version.Some? then board0.value.product else None;
        list := [HatInfo(0, id, version, product)];
      }
    }
  }

  /** One pass of hat_list's loop over boards 1 to 7: the entry of one board, or none. */
  method ListEntry(address: nat, image: Option<ListImage>, filter: U16) returns (entry: seq<HatInfo>)
    ensures entry == if image.Some? && ListAccepts(image.value, filter)
                     then [ImageEntry(address, image.value.vendorInfo.value)] else []
  {
    if image.None? {
      return [];
    }
    var h := image.value.header;
    if h.signature != SIGNATURE || h.formatVersion != FORMAT_VERSION || h.numatoms < 1 {
      return [];
    }
    if image.value.firstAtomType != Some(ATOM_VENDOR_TYPE) {
      return [];
    }
    if image.value.vendorInfo.None? {
      return [];
    }
    var v := image.value.vendorInfo.value;
    if v.vendor == VENDOR_NAME && (filter == 0 || v.pid == filter) {
      return [HatInfo(address, v.pid, Some(v.pver), Some(ProductName(v.product)))];
    }
    return [];
  }

  /**
   * Who is listed: board 0 when the device tree names the vendor and a
   * matching product ID, and board a of 1 to 7 when its image passes the
   * EEPROM rule.
   */
  lemma HatListMembers(filter: U16, board0: Option<DeviceTreeHat>, images: seq<Option<ListImage>>)
    requires |images| == MAX_NUMBER_HATS
    ensures Listed(HatListSpec(filter, board0, images), 0) <==> board0.Some? && Board0Accepts(board0.value, filter)
    ensures forall a :: 1 <= a < MAX_NUMBER_HATS ==>
      (Listed(HatListSpec(filter, board0, images), a) <==> images[a].Some? && ListAccepts(images[a].value, filter))
  {
    ListUpToSpec(images, filter, MAX_NUMBER_HATS);
    var head := Board0Part(filter, board0);
    var tail := ListUpTo(images, filter, MAX_NUMBER_HATS);
    assert HatListSpec(filter, board0, images) == head + tail;
    assert !Listed(tail, 0);
    ListedConcat(head, tail, 0);
    if |head| == 1 {
      assert head[0].address == 0;
    }
    forall a | 1 <= a < MAX_NUMBER_HATS
      ensures Listed(head + tail, a) <==> images[a].Some? && ListAccepts(images[a].value, filter)
    {
      ListedConcat(head, tail, a);
      assert !Listed(head, a);
    }
  }

  /** The list is in address order, so no board appears twice. */
  lemma HatListOrdered(filter: U16, board0: Option<DeviceTreeHat>, images: seq<Option<ListImage>>)
    requires |images| == MAX_NUMBER_HATS
    ensures AddressOrdered(HatListSpec(filter, board0, images))
  {
    ListUpToSpec(images, filter, MAX_NUMBER_HATS);
    var head := Board0Part(filter, board0);
    var tail := ListUpTo(images, filter, MAX_NUMBER_HATS);
    assert HatListSpec(filter, board0, images) == head + tail;
    OrderedAfterBoard0(head, tail);
  }

  /** A board 0 part followed by ordered entries of boards 1 and up stays ordered. */
  lemma OrderedAfterBoard0(head: seq<HatInfo>, tail: seq<HatInfo>)
    requires |head| <= 1 && forall k :: 0 <= k < |head| ==> head[k].address == 0
    requires forall k :: 0 <= k < |tail| ==> 1 <= tail[k].address
    requires AddressOrdered(tail)
    ensures AddressOrdered(head + tail)
  {
    var l := head + tail;
    forall j, k | 0 <= j < k < |l|
      ensures l[j].address < l[k].address
    {
      assert l[k] == tail[k - |head|];
      if j >= |head| {
        assert l[j] == tail[j - |head|];
      } else {
        assert l[j] == head[j];
      }
    }
  }

  // ---------------------------------------------------------------------
  // _hat_info

  /** One atom header as read, with the vendor information that follows a vendor atom (None for a short read). */
  datatype Atom = Atom(atomType: nat, dlen: nat, vendorInfo: Option<VendorInfo>)

  /**
   * What _hat_info reads from an EEPROM image: the header, and the atoms in
   * the order successive reads return them.  The sequence ends where a
   * read comes back short.  After a custom atom the next read begins at
   * that atom's data, and the model takes whatever it returns as the next
   * element.
   */
  datatype InfoImage = InfoImage(header: Header, atoms: seq<Atom>)

  /** _hat_info asks for more than one atom: stricter than hat_list's rule. */
  predicate InfoHeaderValid(h: Header)
  {
    h.signature == SIGNATURE && h.formatVersion == FORMAT_VERSION && h.numatoms > 1
  }

  /** An image with a single atom is listed by hat_list and refused by _hat_info. */
  lemma InfoStricterThanList(h: Header)
    ensures InfoHeaderValid(h) ==> HeaderValid(h)
    ensures HeaderValid(h) && h.numatoms == 1 ==> !InfoHeaderValid(h)
  {
  }

  /**
   * The state of the atom walk in _hat_info.  The atom counter is the
   * source's uint8_t: it wraps from 255 to 0, while the header's count is
   * 16 bits wide.
   */
  datatype Walk = Walk(next: nat, atomNum: Byte, error: bool, foundVendor: bool, foundCustom: bool,
                       entry: Option<HatInfo>, lastDlen: nat)

  predicate WalkDone(w: Walk, numatoms: nat)
  {
    (w.foundCustom && w.foundVendor) || w.atomNum >= numatoms || w.error
  }

  /** uint8_t arithmetic of the atom counter. */
  function Wrap8(x: int): (r: Byte)
    ensures 0 <= x < 0x100 ==> r == x
  {
    x % 0x100
  }

  /** One pass of the walk: read an atom and act on its type. */
  function WalkStep(w: Walk, atoms: seq<Atom>, address: nat): (r: Walk)
    ensures r.error || r.next == w.next + 1
    ensures r.next <= w.next + 1
    ensures w.next <= |atoms| ==> r.next <= |atoms|
    ensures r.next == w.next ==> r.error
  {
    if w.next >= |atoms| then w.(error := true)
    else
      var atom := atoms[w.next];
      var w1 := w.(next := w.next + 1, lastDlen := atom.dlen);
      if atom.atomType == ATOM_VENDOR_TYPE then
        if atom.vendorInfo.None? then w1.(error := true)
        else if atom.vendorInfo.value.vendor == VENDOR_NAME then
          w1.(foundVendor := true, entry := Some(ImageEntry(address, atom.vendorInfo.value)), atomNum := Wrap8(w.atomNum + 1))
        else w1.(error := true, atomNum := Wrap8(w.atomNum + 1))
      else if atom.atomType == ATOM_CUSTOM_TYPE then w1.(foundCustom := true)
      else w1.(atomNum := Wrap8(w.atomNum + 1))
  }

  function WalkMeasure(w: Walk, atoms: seq<Atom>): nat
    requires w.next <= |atoms|
  {
    2 * (|atoms| - w.next) + (if w.error then 0 else 1)
  }

  /**
   * The walk until it stops.  With more than 255 atoms in the header the
   * wrapping counter never reaches the count, so only the two wanted atoms
   * or a failed read end the walk.
   */
  function WalkFrom(w: Walk, atoms: seq<Atom>, numatoms: nat, address: nat): (r: Walk)
    requires w.next <= |atoms|
    ensures WalkDone(r, numatoms)
    ensures r.next <= |atoms|
    ensures numatoms > 0xFF ==> (r.foundCustom && r.foundVendor) || r.error
    decreases WalkMeasure(w, atoms)
  {
    if WalkDone(w, numatoms) then w
    else
      var s := WalkStep(w, atoms, address);
      WalkFrom(s, atoms, numatoms, address)
  }

  const WALK_START: Walk := Walk(0, 0, false, false, false, None, 0)

  /** The result _hat_info gives: the entry if a vendor atom was found, and the size of the custom data plus one. */
  datatype InfoResult = InfoResult(result: ResultCode, entry: Option<HatInfo>, size: U16)

  /** uint16_t arithmetic of the custom size. */
  function Wrap16(x: int): (r: U16)
    ensures 0 <= x < 0x1_0000 ==> r == x
  {
    x % 0x1_0000
  }

  /**
   * _hat_info when only the size of the custom data is asked for.  Board 0
   * uses the device tree when it names the vendor; otherwise the EEPROM
   * image is walked.  A valid header gives SUCCESS even when the walk found
   * no vendor atom.
   */
  function HatInfoSpec(address: nat, board0: Option<DeviceTreeHat>, customFileSize: Option<nat>,
                       image: Option<InfoImage>): (r: InfoResult)
    ensures address >= MAX_NUMBER_HATS ==> r.result == BadParameter
    ensures address < MAX_NUMBER_HATS && (address != 0 || board0.None? || board0.value.vendor != VENDOR_NAME) ==>
      (r.result == Success <==> image.Some? && InfoHeaderValid(image.value.header))
  {
    if address >= MAX_NUMBER_HATS then InfoResult(BadParameter, None, 0)
    else if address == 0 && board0.Some? && board0.value.vendor == VENDOR_NAME then
      var hat := board0.value;
      var size := if customFileSize.Some? then Wrap16(customFileSize.value) else 0;
      InfoResult(Success, Some(HatInfo(0, if hat.productId.Some? then hat.productId.value else 0, hat.version, hat.product)),
                 Wrap16(size + 1))
    else if image.None? || !InfoHeaderValid(image.value.header) then InfoResult(BadParameter, None, 0)
    else
      var w := WalkFrom(WALK_START, image.value.atoms, image.value.header.numatoms, address);
      var size := if w.foundCustom then Wrap16(w.lastDlen - CRC_SIZE) else 0;
      InfoResult(Success, w.entry, Wrap16(size + 1))
  }

  /**
   * The standard layout is read as meant: a vendor atom with the
   * company's name followed by the custom atom gives the entry and the
   * custom data's length without its CRC, plus one.
   */
  lemma HatInfoStandardLayout(address: nat, v: VendorInfo, vendorLen: nat, customLen: nat, rest: seq<Atom>, numatoms: nat)
    requires 1 <= address < MAX_NUMBER_HATS && v.vendor == VENDOR_NAME && numatoms > 1
    requires CRC_SIZE <= customLen < 0x1_0000
    ensures var image := InfoImage(Header(SIGNATURE, FORMAT_VERSION, numatoms),
                                   [Atom(ATOM_VENDOR_TYPE, vendorLen, Some(v)), Atom(ATOM_CUSTOM_TYPE, customLen, None)] + rest);
      HatInfoSpec(address, None, None, Some(image)) == InfoResult(Success, Some(ImageEntry(address, v)), customLen - CRC_SIZE + 1)
  {
    var atoms := [Atom(ATOM_VENDOR_TYPE, vendorLen, Some(v)), Atom(ATOM_CUSTOM_TYPE, customLen, None)] + rest;
    var w1 := WalkStep(WALK_START, atoms, address);
    var w2 := WalkStep(w1, atoms, address);
    assert WalkFrom(WALK_START, atoms, numatoms, address) == WalkFrom(w1, atoms, numatoms, address) == w2;
  }

  /** Atom i is a vendor atom naming the company, and e is the entry it gives. */
  predicate VendorEntryAt(atoms: seq<Atom>, i: nat, address: nat, e: HatInfo)
  {
    i < |atoms| && atoms[i].atomType == ATOM_VENDOR_TYPE && atoms[i].vendorInfo.Some? &&
    atoms[i].vendorInfo.value.vendor == VENDOR_NAME && e == ImageEntry(address, atoms[i].vendorInfo.value)
  }

  /** An entry is reported only for a vendor atom that names the company, among the atoms read. */
  lemma {:induction false} WalkEntrySound(w: Walk, atoms: seq<Atom>, numatoms: nat, address: nat)
    requires w.next <= |atoms|
    requires w.entry.Some? ==> exists i: nat :: i < w.next && VendorEntryAt(atoms, i, address, w.entry.value)
    ensures WalkFrom(w, atoms, numatoms, address).entry.Some? ==>
      exists i: nat :: VendorEntryAt(atoms, i, address, WalkFrom(w, atoms, numatoms, address).entry.value)
    decreases WalkMeasure(w, atoms)
  {
    if !WalkDone(w, numatoms) {
      var s := WalkStep(w, atoms, address);
      if s.entry.Some? {
        if s.entry != w.entry {
          assert VendorEntryAt(atoms, w.next, address, s.entry.value);
        } else {
          var i: nat :| i < w.next && VendorEntryAt(atoms, i, address, w.entry.value);
          assert i < s.next;
        }
      }
      WalkEntrySound(s, atoms, numatoms, address);
    } else if w.entry.Some? {
      var i: nat :| i < w.next && VendorEntryAt(atoms, i, address, w.entry.value);
      assert WalkFrom(w, atoms, numatoms, address) == w;
    }
  }

  /**
   * _hat_info over the library's reads, with the atom walk as the loop
   * the source runs.
   */
  method HatInfoRead(address: nat, board0: Option<DeviceTreeHat>, customFileSize: Option<nat>, image: Option<InfoImage>)
    returns (r: InfoResult)
    ensures r == HatInfoSpec(address, board0, customFileSize, image)
  {
    if address >= MAX_NUMBER_HATS {
      return InfoResult(BadParameter, None, 0);
    }
    if address == 0 && board0.Some? && board0.value.vendor == VENDOR_NAME {
      var hat := board0.value;
      var id := if hat.productId.Some? then hat.productId.value else 0;
      var customSize := 0;
      if customFileSize.Some? {
        customSize := customFileSize.value % 0x1_0000;
      }
      return InfoResult(Success, Some(HatInfo(0, id, hat.version, hat.product)), (customSize + 1) % 0x1_0000);
    }
    if image.None? {
      return InfoResult(BadParameter, None, 0);
    }
    var h := image.value.header;
    if !(h.signature == SIGNATURE && h.formatVersion == FORMAT_VERSION && h.numatoms > 1) {
      return InfoResult(BadParameter, None, 0);
    }
    var w := WalkAtoms(image.value.atoms, h.numatoms, address);
    var customSize := if w.foundCustom then (w.lastDlen - CRC_SIZE) % 0x1_0000 else 0;
    r := InfoResult(Success, w.entry, (customSize + 1) % 0x1_0000);
  }

  /**
   * The atom walk of _hat_info: read atoms until both wanted atoms are
   * found, the uint8_t counter of vendor and other atoms reaches numatoms,
   * or a read fails.
   */
  method WalkAtoms(atoms: seq<Atom>, numatoms: nat, address: nat) returns (w: Walk)
    ensures w == WalkFrom(WALK_START, atoms, numatoms, address)
  {
    w := WALK_START;
    while !((w.foundCustom && w.foundVendor) || w.atomNum >= numatoms || w.error)
      invariant w.next <= |atoms|
      invariant WalkFrom(w, atoms, numatoms, address) == WalkFrom(WALK_START, atoms, numatoms, address)
      decreases WalkMeasure(w, atoms)
    {
      w := WalkStep(w, atoms, address);
    }
  }
}
