// The helpers the C example programs share (examples/c/daqhats_utils.h):
// channel masks turned into arrays and strings, option, trigger, mode,
// range and thermocouple codes turned into names, and the interactive
// choice of a board address.

module CExampleUtils {
  import opened DaqHats
  import opened Text
  import opened Util

  /** The width of a channel mask, uint32_t. */
  const MASK_BITS: nat := 32

  /** The channel numbers of a mask, ascending. */
  function Channels(mask: U32): (cs: seq<nat>)
    ensures |cs| == PopCount(mask, MASK_BITS)
    ensures forall c: nat :: c in cs <==> c < MASK_BITS && Bit(mask, c) == 1
  {
    SetBitsSpec(mask, MASK_BITS);
    SetBits(mask, MASK_BITS)
  }

  /** The decimal names of a list of channel numbers. */
  function Numerals(cs: seq<nat>): (ns: seq<string>)
    ensures |ns| == |cs| && forall k :: 0 <= k < |cs| ==> ns[k] == Decimal(cs[k])
  {
    if |cs| == 0 then [] else Numerals(cs[..|cs| - 1]) + [Decimal(cs[|cs| - 1])]
  }

  /** The shift loop has seen bits 0 .. i-1 of the mask; m is what is left of it. */
  ghost predicate Shifted(mask: U32, m: nat, i: nat)
  {
    m == mask / Pow2(i) && i <= MASK_BITS
  }

  /** One turn of `channel_mask >>= 1; i++`: bit i is m's low bit, and while m > 0, i stays below 32. */
  lemma ShiftTurn(mask: U32, m: nat, i: nat)
    requires Shifted(mask, m, i) && m > 0
    ensures Bit(mask, i) == m % 2 && Shifted(mask, m / 2, i + 1)
    ensures SetBits(mask, i + 1) == SetBits(mask, i) + (if m % 2 == 1 then [i] else [])
  {
    ShiftStep(mask, i);
    ShiftBound(mask, i);
  }

  /** A mask of 32 bits has nothing left once shifted right 32 times. */
  lemma ShiftBound(mask: U32, i: nat)
    requires mask / Pow2(i) > 0
    ensures i < MASK_BITS
  {
    var p := Pow2(i);
    assert mask >= p by {
      assert mask == (mask / p) * p + mask % p;
      MulAtLeast(mask / p, p);
    }
    if i >= 32 {
      Pow2Monotone(32, i);
    }
    Pow2ThirtyTwo();
  }

  /** The numerals of the bits seen grow by bit i's numeral exactly when that bit is set. */
  lemma NumeralsTurn(mask: U32, i: nat, b: nat)
    requires SetBits(mask, i + 1) == SetBits(mask, i) + (if b == 1 then [i] else [])
    ensures Terminated(Numerals(SetBits(mask, i + 1)), ", ")
      == Terminated(Numerals(SetBits(mask, i)), ", ") + (if b == 1 then Decimal(i) + ", " else "")
  {
    if b == 1 {
      NumeralsSnoc(SetBits(mask, i), i);
    } else {
      assert SetBits(mask, i + 1) == SetBits(mask, i);
    }
  }

  lemma NumeralsSnoc(cs: seq<nat>, c: nat)
    ensures Terminated(Numerals(cs + [c]), ", ") == Terminated(Numerals(cs), ", ") + Decimal(c) + ", "
  {
    assert (cs + [c])[..|cs|] == cs;
    TerminatedSnoc(Numerals(cs), Decimal(c), ", ");
  }

  /** When nothing is left to shift, the bits seen are all the set bits. */
  lemma ShiftDone(mask: U32, i: nat)
    requires Shifted(mask, 0, i)
    ensures SetBits(mask, i) == Channels(mask)
    ensures mask == 0 <==> SetBits(mask, i) == []
  {
    var p := Pow2(i);
    assert mask == (mask / p) * p + mask % p;
    SetBitsAbove(mask, i, MASK_BITS);
    SetBitsSpec(mask, i);
    if SetBits(mask, i) == [] {
      PopCountZero(mask, i);
    }
  }

  /** The state of the loop in convert_chan_mask_to_array: the channels seen so far written, the rest untouched. */
  ghost predicate Filled(mask: U32, m: nat, i: nat, written: seq<int>, count: nat, rest: seq<int>)
  {
    Shifted(mask, m, i) && count == |SetBits(mask, i)| <= PopCount(mask, MASK_BITS) <= |written|
    && |rest| == |written| && written[..count] == SetBits(mask, i) && written[count..] == rest[count..]
  }

  ghost predicate Filling(mask: U32, m: nat, i: nat, chans: array<int>, count: nat, rest: seq<int>)
    reads chans
  {
    Filled(mask, m, i, chans[..], count, rest)
  }

  /** Writing channel i at the count when the low bit is set, or nothing when it is clear, keeps the loop state. */
  lemma FillTurn(mask: U32, m: nat, i: nat, written: seq<int>, count: nat, rest: seq<int>)
    requires Filled(mask, m, i, written, count, rest) && m > 0
    ensures m % 2 == 1 ==> count < |written| && Filled(mask, m / 2, i + 1, written[count := i], count + 1, rest)
    ensures m % 2 == 0 ==> Filled(mask, m / 2, i + 1, written, count, rest)
  {
    ShiftTurn(mask, m, i);
    SetBitsSpec(mask, i + 1);
    PopCountMonotone(mask, i + 1, MASK_BITS);
    if m % 2 == 1 {
      var w := written[count := i];
      assert w[..count + 1] == written[..count] + [i];
      assert w[count + 1..] == written[count + 1..];
    }
  }

  /** One turn of the loop: record channel i when the low bit of what is left is set, then shift. */
  method FillStep(mask: U32, chans: array<int>, m: nat, i: nat, count: nat, ghost rest: seq<int>)
    returns (m': nat, i': nat, count': nat)
    requires Filling(mask, m, i, chans, count, rest) && m > 0
    modifies chans
    ensures Filling(mask, m', i', chans, count', rest) && m' < m
  {
    FillTurn(mask, m, i, chans[..], count, rest);
    count' := count;
    if m % 2 == 1 {
      chans[count'] := i;
      count' := count' + 1;
    }
    i' := i + 1;
    m' := m / 2;
  }

  /** Once the mask is used up, what was written is the whole channel list. */
  lemma FillDone(mask: U32, i: nat, written: seq<int>, count: nat)
    requires Shifted(mask, 0, i) && count == |SetBits(mask, i)| <= |written| && written[..count] == SetBits(mask, i)
    ensures count == PopCount(mask, MASK_BITS) && forall k :: 0 <= k < count ==> written[k] == Channels(mask)[k]
  {
    ShiftDone(mask, i);
    assert forall k :: 0 <= k < count ==> written[..count][k] == written[k];
  }

  /**
   * convert_chan_mask_to_array: writes the channel numbers of the mask into
   * chans in ascending order and returns how many there are; a NULL array
   * gets nothing and the count 0.
   */
  method ChanMaskToArray(mask: U32, chans: array?<int>) returns (count: int)
    requires chans != null ==> PopCount(mask, MASK_BITS) <= chans.Length
    modifies chans
    ensures chans == null ==> count == 0
    ensures chans != null ==> (count == PopCount(mask, MASK_BITS)
      && (forall k :: 0 <= k < count ==> chans[k] == Channels(mask)[k])
      && chans[count..] == old(chans[count..]))
  {
    if chans == null {
      return 0;
    }
    var m: nat := mask;
    var i: nat := 0;
    var n: nat := 0;
    Pow2ThirtyTwo();
    DivUnique(mask, 1, mask, 0);
    ghost var rest := chans[..];
    while m > 0
      invariant Filling(mask, m, i, chans, n, rest)
      decreases m
    {
      m, i, n := FillStep(mask, chans, m, i, n, rest);
    }
    FillDone(mask, i, chans[..], n);
    count := n;
  }

  /**
   * convert_chan_mask_to_string: the channel numbers joined by ", ". A zero
   * mask leaves the string without a comma, so the final strrchr store goes
   * through NULL: None.
   */
  method ChanMaskToString(mask: U32) returns (r: Option<string>)
    ensures r.None? <==> mask == 0
    ensures r.Some? ==> r.value == Join(Numerals(Channels(mask)), ", ")
  {
    var s := "";
    var m: nat := mask;
    var i: nat := 0;
    Pow2ThirtyTwo();
    DivUnique(mask, 1, mask, 0);
    while m > 0
      invariant Shifted(mask, m, i)
      invariant s == Terminated(Numerals(SetBits(mask, i)), ", ")
      decreases m
    {
      ShiftTurn(mask, m, i);
      NumeralsTurn(mask, i, m % 2);
      if m % 2 == 1 {
        s := s + Decimal(i) + ", ";
      }
      i := i + 1;
      m := m / 2;
    }
    ShiftDone(mask, i);
    r := CutAtLast(s, ',');
    if mask != 0 {
      CutTerminated(Numerals(Channels(mask)));
    }
  }

  const OPTION_NAMES: seq<string> :=
    ["OPTS_NOSCALEDATA", "OPTS_NOCALIBRATEDATA", "OPTS_EXTCLOCK", "OPTS_EXTTRIGGER", "OPTS_CONTINUOUS"]

  /** Which of the five known flags, in header order, are set in options. */
  function Present(options: U32): (p: seq<bool>)
    ensures |p| == 5 && forall k :: 0 <= k < 5 ==> (p[k] <==> Bit(options, k) == 1)
  {
    [Bit(options, 0) == 1, Bit(options, 1) == 1, Bit(options, 2) == 1, Bit(options, 3) == 1, Bit(options, 4) == 1]
  }

  /** The names of the flags marked present, in order. */
  function Named(p: seq<bool>): (ns: seq<string>)
    requires |p| <= 5
  {
    if |p| == 0 then [] else Named(p[..|p| - 1]) + (if p[|p| - 1] then [OPTION_NAMES[|p| - 1]] else [])
  }

  /** The names of the known option flags present in options. */
  function OptionNames(options: U32): (ns: seq<string>)
  {
    Named(Present(options))
  }

  /** The list names exactly the flags that are set, and is empty exactly when none is. */
  lemma OptionNamesMembers(options: U32)
    ensures forall k :: 0 <= k < 5 ==> (OPTION_NAMES[k] in OptionNames(options) <==> Bit(options, k) == 1)
    ensures OptionNames(options) == [] <==> forall k :: 0 <= k < 5 ==> Bit(options, k) == 0
  {
    var p := Present(options);
    NamedMembers(p, 5);
    assert p[..5] == p;
    forall k | 0 <= k < 5 && Bit(options, k) == 1
      ensures OptionNames(options) != []
    {
      assert OPTION_NAMES[k] in OptionNames(options);
    }
  }

  lemma {:induction false} NamedMembers(p: seq<bool>, n: nat)
    requires |p| == 5 && n <= 5
    ensures forall k :: 0 <= k < 5 ==> (OPTION_NAMES[k] in Named(p[..n]) <==> k < n && p[k])
    ensures Named(p[..n]) == [] <==> forall k :: 0 <= k < n ==> !p[k]
  {
    if n > 0 {
      NamedMembers(p, n - 1);
      assert p[..n][..n - 1] == p[..n - 1];
      forall k | 0 <= k < 5
        ensures OPTION_NAMES[k] in Named(p[..n]) <==> k < n && p[k]
      {
        if k != n - 1 {
          NamesDistinct(k, n - 1);
        }
      }
    }
  }

  lemma NamesDistinct(j: nat, k: nat)
    requires j < 5 && k < 5 && j != k
    ensures OPTION_NAMES[j] != OPTION_NAMES[k]
  {
    assert |OPTION_NAMES[0]| == 16 && |OPTION_NAMES[1]| == 20 && |OPTION_NAMES[2]| == 13;
    assert |OPTION_NAMES[3]| == 15 && |OPTION_NAMES[4]| == 15;
    assert OPTION_NAMES[3][5] == 'E' && OPTION_NAMES[4][5] == 'C';
  }

  /** Flag k's name is appended exactly when it is present: one of the five strcat steps. */
  lemma OptionStep(p: seq<bool>, k: nat)
    requires |p| == 5 && k < 5
    ensures Terminated(Named(p[..k + 1]), ", ")
      == Terminated(Named(p[..k]), ", ") + (if p[k] then OPTION_NAMES[k] + ", " else "")
  {
    assert p[..k + 1][..k] == p[..k];
    assert Named(p[..k + 1]) == Named(p[..k]) + (if p[k] then [OPTION_NAMES[k]] else []);
    if p[k] {
      var before := Terminated(Named(p[..k]), ", ");
      TerminatedSnoc(Named(p[..k]), OPTION_NAMES[k], ", ");
      assert before + OPTION_NAMES[k] + ", " == before + (OPTION_NAMES[k] + ", ");
    } else {
      assert Named(p[..k + 1]) == Named(p[..k]);
    }
  }

  /** One `if (options & flag) strcat(options_str, "NAME, ")` step, for flag k. */
  method CatFlag(ghost p: seq<bool>, k: nat, present: bool, s: string) returns (t: string)
    requires |p| == 5 && k < 5 && present == p[k] && s == Terminated(Named(p[..k]), ", ")
    ensures t == Terminated(Named(p[..k + 1]), ", ")
  {
    OptionStep(p, k);
    t := s;
    if present {
      t := t + OPTION_NAMES[k] + ", ";
    }
  }

  /**
   * convert_options_to_string: "OPTS_DEFAULT" for 0, otherwise the names of
   * the known flags present, joined by ", ". A non-zero value with none of
   * the five known flags leaves no comma for strrchr: None.
   */
  method OptionsToString(options: U32) returns (r: Option<string>)
    ensures options == OPTS_DEFAULT ==> r == Some("OPTS_DEFAULT")
    ensures options != OPTS_DEFAULT ==>
      r == (if OptionNames(options) == [] then None else Some(Join(OptionNames(options), ", ")))
  {
    if options == OPTS_DEFAULT {
      return Some("OPTS_DEFAULT");
    }
    ghost var p := Present(options);
    var s := "";
    assert p[..0] == [];
    s := CatFlag(p, 0, Bit(options, 0) == 1, s);
    s := CatFlag(p, 1, Bit(options, 1) == 1, s);
    s := CatFlag(p, 2, Bit(options, 2) == 1, s);
    s := CatFlag(p, 3, Bit(options, 3) == 1, s);
    s := CatFlag(p, 4, Bit(options, 4) == 1, s);
    assert p[..5] == p;
    r := CutAtLast(s, ',');
    CutNames(OptionNames(options));
  }

  /** Cutting the strcat result at its last comma: the joined names, or no comma at all when there are none. */
  lemma CutNames(ns: seq<string>)
    ensures CutAtLast(Terminated(ns, ", "), ',') == (if ns == [] then None else Some(Join(ns, ", ")))
  {
    if ns != [] {
      CutTerminated(ns);
    }
  }

  // ---------------------------------------------------------------------
  // Code-to-name switches; every unknown code takes the switch's default

  function TriggerModeName(mode: Byte): (s: string)
  {
    if mode == TRIG_FALLING_EDGE then "TRIG_FALLING_EDGE"
    else if mode == TRIG_ACTIVE_HIGH then "TRIG_ACTIVE_HIGH"
    else if mode == TRIG_ACTIVE_LOW then "TRIG_ACTIVE_LOW"
    else "TRIG_RISING_EDGE"
  }

  /** The trigger mode a name stands for. */
  function TriggerModeOf(s: string): (mode: Option<Byte>)
  {
    if s == "TRIG_RISING_EDGE" then Some(TRIG_RISING_EDGE)
    else if s == "TRIG_FALLING_EDGE" then Some(TRIG_FALLING_EDGE)
    else if s == "TRIG_ACTIVE_HIGH" then Some(TRIG_ACTIVE_HIGH)
    else if s == "TRIG_ACTIVE_LOW" then Some(TRIG_ACTIVE_LOW)
    else None
  }

  /** The four modes have distinct names, and any other code is shown as rising edge. */
  lemma TriggerModeNameRoundTrip(mode: Byte)
    ensures TriggerModeOf(TriggerModeName(mode)) == Some(if mode <= TRIG_ACTIVE_LOW then mode else TRIG_RISING_EDGE)
  {
    assert "TRIG_ACTIVE_LOW" != "TRIG_RISING_EDGE" && "TRIG_ACTIVE_HIGH" != "TRIG_RISING_EDGE";
    assert "TRIG_FALLING_EDGE" != "TRIG_RISING_EDGE";
    assert "TRIG_ACTIVE_HIGH"[5] != "TRIG_FALLING_EDGE"[5] && "TRIG_ACTIVE_LOW"[5] != "TRIG_FALLING_EDGE"[5];
    assert "TRIG_ACTIVE_LOW"[12] != "TRIG_ACTIVE_HIGH"[12];
  }

  const A_IN_MODE_SE: Byte := 0
  const A_IN_MODE_DIFF: Byte := 1

  function InputModeName(mode: Byte): (s: string)
    ensures s == "SINGLE_ENDED" <==> mode == A_IN_MODE_SE
  {
    if mode == A_IN_MODE_SE then "SINGLE_ENDED" else "DIFFERENTIAL"
  }

  function InputRangeName(range: Byte): (s: string)
  {
    if range == 0 then "+/- 10 V"
    else if range == 1 then "+/- 5 V"
    else if range == 2 then "+/- 2 V"
    else "+/- 1 V"
  }

  /** The range a name stands for. */
  function InputRangeOf(s: string): (range: Option<Byte>)
  {
    if s == "+/- 10 V" then Some(0)
    else if s == "+/- 5 V" then Some(1)
    else if s == "+/- 2 V" then Some(2)
    else if s == "+/- 1 V" then Some(3)
    else None
  }

  /** The four ranges have distinct names, and any other code is shown as +/- 1 V. */
  lemma InputRangeNameRoundTrip(range: Byte)
    ensures InputRangeOf(InputRangeName(range)) == Some(if range <= 3 then range else 3)
  {
    assert "+/- 5 V"[4] != "+/- 2 V"[4] && "+/- 5 V"[4] != "+/- 1 V"[4] && "+/- 2 V"[4] != "+/- 1 V"[4];
  }

  const TC_DISABLED: Byte := 0xFF

  /** Thermocouple types J, K, T, E, R, S, B, N are codes 0 .. 7; type C (8) has no case. */
  function TcTypeName(tcType: Byte): (s: string)
  {
    if tcType < 8 then ["JKTERSBN"[tcType]] else "DISABLED"
  }

  /** The type code a name stands for; "DISABLED" stands for TC_DISABLED. */
  function TcTypeOf(s: string): (tcType: Option<Byte>)
  {
    if |s| == 1 && s[0] in "JKTERSBN" then Some(IndexOf("JKTERSBN", s[0])) else if s == "DISABLED" then Some(TC_DISABLED) else None
  }

  function IndexOf(s: string, c: char): (k: nat)
    requires c in s
    ensures k < |s| && s[k] == c && c !in s[..k]
  {
    if s[0] == c then 0 else assert s == [s[0]] + s[1..]; 1 + IndexOf(s[1..], c)
  }

  /** Every type below 8 reads back as itself; type C and every other code read back as disabled. */
  lemma TcTypeNameRoundTrip(tcType: Byte)
    ensures TcTypeOf(TcTypeName(tcType)) == Some(if tcType < 8 then tcType else TC_DISABLED)
  {
    var t := "JKTERSBN";
    if tcType < 8 {
      assert forall j, k :: 0 <= j < k < 8 ==> t[j] != t[k];
      var k := IndexOf(t, t[tcType]);
      assert t[k] == t[tcType];
    } else {
      assert |"DISABLED"| == 8;
    }
  }

  // ---------------------------------------------------------------------
  // select_hat_device

  /** What scanf("%d") made of the user's line. */
  datatype Entry = Matched(value: int) | NoMatch | EndOfInput

  /** The address the code goes on with: the scanned value, or 0 when scanf hit EOF, cast to uint8_t. */
  function Chosen(e: Entry): (a: Byte)
    requires !e.NoMatch?
  {
    ToByte(if e.Matched? then e.value else 0)
  }

  /**
   * select_hat_device: with one board, its address; with several, the
   * address entered, accepted only when a listed board has it. The result
   * is 0 on success and -1 otherwise; address is what the call stored
   * through its out-parameter, which it does even when the entry is not listed.
   */
  method SelectHatDevice(addressGiven: bool, hats: seq<HatInfo>, entry: Entry) returns (result: int, address: Option<Byte>)
    ensures result == 0 || result == -1
    ensures !addressGiven || |hats| == 0 ==> result == -1 && address == None
    ensures addressGiven && |hats| == 1 ==> result == 0 && address == Some(ToByte(hats[0].address))
    ensures addressGiven && |hats| > 1 && entry.NoMatch? ==> result == -1 && address == None
    ensures addressGiven && |hats| > 1 && !entry.NoMatch? ==> (address == Some(Chosen(entry))
      && (result == 0 <==> exists i :: 0 <= i < |hats| && ToByte(hats[i].address) == Chosen(entry)))
  {
    result, address := -1, None;
    if !addressGiven {
      return;
    }
    if |hats| > 0 {
      if |hats| == 1 {
        address := Some(ToByte(hats[0].address));
        result := 0;
      } else {
        if entry.NoMatch? {
          return -1, None;
        }
        var a := Chosen(entry);
        address := Some(a);
        var i := 0;
        while i < |hats|
          invariant 0 <= i <= |hats| && result == -1
          invariant forall j :: 0 <= j < i ==> ToByte(hats[j].address) != a
        {
          if ToByte(hats[i].address) == a {
            result := 0;
            break;
          }
          i := i + 1;
        }
      }
    }
  }

  /** The entry is cast to uint8_t before the search, so 258 picks the board at address 2. */
  lemma EntryWrapsToByte()
    ensures Chosen(Matched(258)) == 2 && Chosen(EndOfInput) == 0
  {
  }
}
