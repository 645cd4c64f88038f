// The shared layer of the Python package (daqhats/hats.py): the exceptions
// the bindings raise, the option flags, hat_list and the Hat base class,
// together with the opening step every board class's __init__ ends with.
// Calls into libdaqhats are parameters: the result code a native call
// returns, and whether the shared library could be loaded at all.

module PyHats {
  import opened DaqHats
  import opened Text
  import Util

  // ---------------------------------------------------------------------
  // Exceptions

  /**
   * What a binding method raises: ValueError (its message is not modelled),
   * HatError with the board's address and its description, the bare
   * Exception raised when libdaqhats is not installed, the IndexError or
   * TypeError Python raises when a ctypes buffer is indexed past its end or
   * is None, and the ZeroDivisionError of a float division by zero.
   */
  datatype Exc =
    | ValueError
    | HatError(address: int, value: string)
    | LibraryMissing
    | IndexError
    | TypeError
    | ZeroDivisionError

  /** A binding call either returns a value or raises. */
  datatype Outcome<T> = Returned(value: T) | Raised(error: Exc)

  /**
   * A binding method that makes one native call: the arguments it hands
   * the library (None when it raises before the call) and what it then
   * returns or raises.
   */
  datatype Call<A, T> = Call(sent: Option<A>, outcome: Outcome<T>)

  const NOT_INITIALIZED: string := "Not initialized."
  const INCORRECT_RESPONSE: string := "Incorrect response."

  /** "Incorrect response {}.".format(result) */
  function IncorrectResponseCode(result: int): (m: string)
    ensures |m| > 20 && m[..19] == "Incorrect response " && m[|m| - 1] == '.'
  {
    "Incorrect response " + SignedDecimal(result) + "."
  }

  /** No two result codes give the same "Incorrect response" message. */
  lemma IncorrectResponseCodeInjective(r1: int, r2: int)
    requires IncorrectResponseCode(r1) == IncorrectResponseCode(r2)
    ensures r1 == r2
  {
    var m := IncorrectResponseCode(r1);
    assert SignedDecimal(r1) == m[19..|m| - 1];
    assert SignedDecimal(r2) == IncorrectResponseCode(r2)[19..|m| - 1];
    SignedDecimalInjective(r1, r2);
  }

  /** str(HatError(address, value)): "Addr {}: ".format(address) + value. */
  function HatErrorStr(address: int, value: string): (s: string)
    ensures |s| > 7 + |value| && s[..5] == "Addr " && s[|s| - |value|..] == value
  {
    "Addr " + SignedDecimal(address) + ": " + value
  }

  /** The address numeral never holds a ':'. */
  lemma SignedDecimalNoColon(n: int)
    ensures forall k :: 0 <= k < |SignedDecimal(n)| ==> SignedDecimal(n)[k] != ':'
  {
    var d := Decimal(if n < 0 then -n else n);
    assert AllDigits(d);
    if n < 0 {
      assert SignedDecimal(n) == "-" + d;
    }
  }

  /** Different numbers have different numerals. */
  lemma SignedDecimalInjective(a: int, b: int)
    requires SignedDecimal(a) == SignedDecimal(b)
    ensures a == b
  {
    assert SignedDecimal(a)[0] == SignedDecimal(b)[0];
    assert (a < 0) == (b < 0);
    if a < 0 {
      assert Decimal(-a) == SignedDecimal(a)[1..];
      assert Decimal(-b) == SignedDecimal(b)[1..];
      DecimalInjective(-a, -b);
    } else {
      DecimalInjective(a, b);
    }
  }

  lemma DecimalInjective(x: nat, y: nat)
    requires Decimal(x) == Decimal(y)
    ensures x == y
  {
    DecimalRoundTrip(x);
    DecimalRoundTrip(y);
  }

  /** The index of the first ':' at or after i, or |s| when there is none. */
  function FirstColon(s: string, i: nat): (j: nat)
    requires i <= |s|
    ensures i <= j <= |s|
    decreases |s| - i
  {
    if i == |s| then i else if s[i] == ':' then i else FirstColon(s, i + 1)
  }

  lemma {:induction false} FirstColonAt(s: string, i: nat, j: nat)
    requires i <= j < |s| && s[j] == ':'
    requires forall k :: i <= k < j ==> s[k] != ':'
    ensures FirstColon(s, i) == j
    decreases j - i
  {
    if i < j {
      FirstColonAt(s, i + 1, j);
    }
  }

  /** The printed message gives back both the address and the description. */
  lemma HatErrorStrInjective(a1: int, v1: string, a2: int, v2: string)
    requires HatErrorStr(a1, v1) == HatErrorStr(a2, v2)
    ensures a1 == a2 && v1 == v2
  {
    var s := HatErrorStr(a1, v1);
    var d1, d2 := SignedDecimal(a1), SignedDecimal(a2);
    SignedDecimalNoColon(a1);
    SignedDecimalNoColon(a2);
    FirstColonAt(s, 5, 5 + |d1|);
    FirstColonAt(HatErrorStr(a2, v2), 5, 5 + |d2|);
    assert |d1| == |d2|;
    assert d1 == s[5..5 + |d1|] && d2 == s[5..5 + |d2|];
    assert v1 == s[7 + |d1|..] && v2 == s[7 + |d2|..];
    SignedDecimalInjective(a1, a2);
  }

  // ---------------------------------------------------------------------
  // OptionFlags

  /** The OptionFlags members in declaration order, DEFAULT first. */
  const OPTION_FLAGS: seq<nat> := [OPTS_DEFAULT, OPTS_NOSCALEDATA, OPTS_NOCALIBRATEDATA, OPTS_EXTCLOCK,
                                   OPTS_EXTTRIGGER, OPTS_CONTINUOUS]

  /** Every member after DEFAULT sets one bit of its own, so the flags combine without clashing. */
  lemma OptionFlagsSingleBits()
    ensures OPTION_FLAGS[0] == 0
    ensures forall i, k: nat :: 1 <= i < |OPTION_FLAGS| ==> (Bit(OPTION_FLAGS[i], k) == 1 <==> k == i - 1)
    ensures forall i, j :: 1 <= i < |OPTION_FLAGS| && 1 <= j < |OPTION_FLAGS| && i != j ==> And(OPTION_FLAGS[i], OPTION_FLAGS[j]) == 0
  {
    assert forall i :: 1 <= i < |OPTION_FLAGS| ==> OPTION_FLAGS[i] == Pow2(i - 1) by {
      assert Pow2(0) == 1 && Pow2(1) == 2 && Pow2(2) == 4 && Pow2(3) == 8 && Pow2(4) == 16;
    }
    forall i, k: nat | 1 <= i < |OPTION_FLAGS|
      ensures Bit(OPTION_FLAGS[i], k) == 1 <==> k == i - 1
    {
      ShiftedOneBits(i - 1, k);
    }
    forall i, j | 1 <= i < |OPTION_FLAGS| && 1 <= j < |OPTION_FLAGS| && i != j
      ensures And(OPTION_FLAGS[i], OPTION_FLAGS[j]) == 0
    {
      AndNonZero(OPTION_FLAGS[i], OPTION_FLAGS[j]);
    }
  }

  // ---------------------------------------------------------------------
  // hat_list

  /** The namedtuple hat_list returns for one board. */
  datatype PyHatInfo = PyHatInfo(address: nat, id: U16, version: U16, productName: string)

  /**
   * One entry as Python sees it. ctypes zero-fills the array it passes to
   * the library, so board 0's version and name read as 0 and "" when the
   * library did not fill them in.
   */
  function Converted(e: Util.HatInfo): (p: PyHatInfo)
    ensures p.address == e.address && p.id == e.id
    ensures p.version == (if e.version.Some? then e.version.value else 0)
    ensures p.productName == (if e.productName.Some? then e.productName.value else "")
  {
    PyHatInfo(e.address, e.id,
              if e.version.Some? then e.version.value else 0,
              if e.productName.Some? then e.productName.value else "")
  }

  /**
   * hat_list(filter_by_id): [] when libdaqhats cannot be loaded or lists
   * no board, otherwise one namedtuple per entry of the library's list, in
   * its order.
   */
  method HatList(libraryLoaded: bool, filter: U16, board0: Option<Util.DeviceTreeHat>,
                 images: seq<Option<Util.ListImage>>) returns (list: seq<PyHatInfo>)
    requires |images| == MAX_NUMBER_HATS
    ensures !libraryLoaded ==> list == []
    ensures libraryLoaded ==> |list| == |Util.HatListSpec(filter, board0, images)|
    ensures libraryLoaded ==> forall k :: 0 <= k < |list| ==> list[k] == Converted(Util.HatListSpec(filter, board0, images)[k])
  {
    if !libraryLoaded {
      return [];
    }
    var entries := Util.HatList(filter, board0, images);
    if |entries| == 0 {
      return [];
    }
    list := ConvertAll(entries);
  }

  /** The loop of hat_list that turns each struct into a namedtuple. */
  method ConvertAll(entries: seq<Util.HatInfo>) returns (list: seq<PyHatInfo>)
    ensures |list| == |entries| && forall k :: 0 <= k < |list| ==> list[k] == Converted(entries[k])
  {
    list := [];
    var k := 0;
    while k < |entries|
      invariant 0 <= k <= |entries|
      invariant |list| == k && forall j :: 0 <= j < k ==> list[j] == Converted(entries[j])
    {
      var item := entries[k];
      list := list + [PyHatInfo(item.address, item.id,
                                if item.version.Some? then item.version.value else 0,
                                if item.productName.Some? then item.productName.value else "")];
      k := k + 1;
    }
  }

  /** Every entry of boards 1 and up carries an ID that passes the filter. */
  lemma {:induction false} ListUpToMatches(images: seq<Option<Util.ListImage>>, filter: U16, n: nat)
    requires |images| == MAX_NUMBER_HATS && 1 <= n <= MAX_NUMBER_HATS
    ensures forall k :: 0 <= k < |Util.ListUpTo(images, filter, n)| ==> Util.IdMatches(filter, Util.ListUpTo(images, filter, n)[k].id)
    decreases n
  {
    if n > 1 {
      ListUpToMatches(images, filter, n - 1);
    }
  }

  /**
   * What hat_list promises its caller: the boards listed are in address
   * order with no board twice, each carries an ID that passes the filter,
   * and board 0 is listed exactly when its device-tree information passes
   * the rule, any other board exactly when its EEPROM image does.
   */
  lemma HatListPromise(filter: U16, board0: Option<Util.DeviceTreeHat>, images: seq<Option<Util.ListImage>>,
                       list: seq<PyHatInfo>)
    requires |images| == MAX_NUMBER_HATS
    requires |list| == |Util.HatListSpec(filter, board0, images)|
    requires forall k :: 0 <= k < |list| ==> list[k] == Converted(Util.HatListSpec(filter, board0, images)[k])
    ensures forall j, k :: 0 <= j < k < |list| ==> list[j].address < list[k].address
    ensures forall k :: 0 <= k < |list| ==> filter == 0 || list[k].id == filter
    ensures (exists k :: 0 <= k < |list| && list[k].address == 0) <==> board0.Some? && Util.Board0Accepts(board0.value, filter)
    ensures forall a :: 1 <= a < MAX_NUMBER_HATS ==>
      ((exists k :: 0 <= k < |list| && list[k].address == a) <==> images[a].Some? && Util.ListAccepts(images[a].value, filter))
  {
    Util.HatListOrdered(filter, board0, images);
    Util.HatListMembers(filter, board0, images);
    HatListIdsMatch(filter, board0, images);
    ConvertedKeeps(Util.HatListSpec(filter, board0, images), list, filter);
  }

  /** Every entry of the library's list carries an ID that passes the filter. */
  lemma HatListIdsMatch(filter: U16, board0: Option<Util.DeviceTreeHat>, images: seq<Option<Util.ListImage>>)
    requires |images| == MAX_NUMBER_HATS
    ensures forall k :: 0 <= k < |Util.HatListSpec(filter, board0, images)| ==>
      Util.IdMatches(filter, Util.HatListSpec(filter, board0, images)[k].id)
  {
    ListUpToMatches(images, filter, MAX_NUMBER_HATS);
    var head := Util.Board0Part(filter, board0);
    var tail := Util.ListUpTo(images, filter, MAX_NUMBER_HATS);
    assert Util.HatListSpec(filter, board0, images) == head + tail;
    MatchesConcat(head, tail, filter);
  }

  lemma MatchesConcat(head: seq<Util.HatInfo>, tail: seq<Util.HatInfo>, filter: U16)
    requires forall k :: 0 <= k < |head| ==> Util.IdMatches(filter, head[k].id)
    requires forall k :: 0 <= k < |tail| ==> Util.IdMatches(filter, tail[k].id)
    ensures forall k :: 0 <= k < |head + tail| ==> Util.IdMatches(filter, (head + tail)[k].id)
  {
    forall k | 0 <= k < |head + tail|
      ensures Util.IdMatches(filter, (head + tail)[k].id)
    {
      if k >= |head| {
        assert (head + tail)[k] == tail[k - |head|];
      }
    }
  }

  /** Converting each entry keeps the order, the IDs and the set of boards listed. */
  lemma ConvertedKeeps(spec: seq<Util.HatInfo>, list: seq<PyHatInfo>, filter: U16)
    requires |list| == |spec| && forall k :: 0 <= k < |list| ==> list[k] == Converted(spec[k])
    requires Util.AddressOrdered(spec)
    requires forall k :: 0 <= k < |spec| ==> Util.IdMatches(filter, spec[k].id)
    ensures forall j, k :: 0 <= j < k < |list| ==> list[j].address < list[k].address
    ensures forall k :: 0 <= k < |list| ==> filter == 0 || list[k].id == filter
    ensures forall a :: (exists k :: 0 <= k < |list| && list[k].address == a) <==> Util.Listed(spec, a)
  {
    forall a
      ensures (exists k :: 0 <= k < |list| && list[k].address == a) <==> Util.Listed(spec, a)
    {
      if exists k :: 0 <= k < |list| && list[k].address == a {
        var k :| 0 <= k < |list| && list[k].address == a;
        assert spec[k].address == a;
      }
      if Util.Listed(spec, a) {
        var k :| 0 <= k < |spec| && spec[k].address == a;
        assert list[k].address == a;
      }
    }
  }

  // ---------------------------------------------------------------------
  // The Hat base class and the board classes' __init__

  /** The fields Hat.__init__ sets: the address and the _initialized flag. */
  datatype Hat = Hat(address: nat, initialized: bool)

  /**
   * Hat.__init__(address): ValueError unless the address is 0 to 7, the
   * bare Exception when the library cannot be loaded, and otherwise an
   * initialized object at that address.
   */
  function HatInit(address: int, libraryLoaded: bool): (r: Outcome<Hat>)
    ensures r == Raised(ValueError) <==> !(0 <= address < MAX_NUMBER_HATS)
    ensures r == Raised(LibraryMissing) <==> 0 <= address < MAX_NUMBER_HATS && !libraryLoaded
    ensures r.Returned? ==> r.value == Hat(address, true)
  {
    if !(0 <= address < MAX_NUMBER_HATS) then Raised(ValueError)
    else if !libraryLoaded then Raised(LibraryMissing)
    else Returned(Hat(address, true))
  }

  const INVALID_BOARD_TYPE: string := "Invalid board type."
  const BOARD_NOT_RESPONDING: string := "Board not responding."

  /**
   * The __init__ of MCC128, MCC152 and MCC172: Hat.__init__, then the
   * library's open call, whose INVALID_DEVICE result and every other
   * failure raise HatError and whose success leaves the object initialized.
   */
  function BoardInit(address: int, libraryLoaded: bool, openResult: int): (r: Outcome<Hat>)
    ensures r.Returned? <==> 0 <= address < MAX_NUMBER_HATS && libraryLoaded && openResult == Code(Success)
    ensures r.Returned? ==> r.value == Hat(address, true)
    ensures HatInit(address, libraryLoaded).Raised? ==> r == HatInit(address, libraryLoaded)
    ensures HatInit(address, libraryLoaded).Returned? && openResult == Code(InvalidDevice) ==> r == Raised(HatError(address, INVALID_BOARD_TYPE))
    ensures HatInit(address, libraryLoaded).Returned? && openResult != Code(InvalidDevice) && openResult != Code(Success) ==>
      r == Raised(HatError(address, BOARD_NOT_RESPONDING))
  {
    var h := HatInit(address, libraryLoaded);
    if h.Raised? then h
    else if openResult == Code(Success) then h
    else if openResult == Code(InvalidDevice) then Raised(HatError(h.value.address, INVALID_BOARD_TYPE))
    else Raised(HatError(h.value.address, BOARD_NOT_RESPONDING))
  }

  /** The guard every board method starts with: HatError "Not initialized." for an object that is not initialized. */
  function Guarded(h: Hat): (r: Option<Exc>)
    ensures r.None? <==> h.initialized
    ensures r.Some? ==> r.value == HatError(h.address, NOT_INITIALIZED)
  {
    if !h.initialized then Some(HatError(h.address, NOT_INITIALIZED)) else None
  }
}
