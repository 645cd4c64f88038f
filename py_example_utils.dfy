// The helpers the Python examples share (examples/python/mcc134/daqhats_utils.py):
// choosing a board, listing the names of an IntEnum's members present in a
// mask, building a channel mask from a list, and checking channel numbers.
// Python integers are unbounded, so masks are nat here.

module PyExampleUtils {
  import opened DaqHats
  import opened Text
  import opened Util

  // ---------------------------------------------------------------------
  // select_hat_device

  datatype Selection =
    | Selected(address: nat)
    | HatErrorRaised(address: nat, message: string)
    | ValueErrorRaised

  /**
   * select_hat_device: the only board's address when there is one; with
   * several, the entered address when a listed board has it. entered is
   * int(input(...)), None when the line is not an integer (int raises
   * ValueError, which the function lets through).
   */
  method SelectHatDevice(hats: seq<HatInfo>, entered: Option<int>) returns (r: Selection)
    ensures |hats| == 0 ==> r == HatErrorRaised(0, "Error: No HAT devices found")
    ensures |hats| == 1 ==> r == Selected(hats[0].address)
    ensures |hats| > 1 ==> (r.Selected? <==> entered.Some? && exists i :: 0 <= i < |hats| && hats[i].address == entered.value)
    ensures |hats| > 1 && r.Selected? ==> entered.Some? && r.address == entered.value
    ensures |hats| > 1 ==> !r.HatErrorRaised?
  {
    var selected: Option<nat> := None;
    if |hats| < 1 {
      return HatErrorRaised(0, "Error: No HAT devices found");
    } else if |hats| == 1 {
      selected := Some(hats[0].address);
    } else {
      if entered.None? {
        return ValueErrorRaised;
      }
      var address := entered.value;
      var i := 0;
      while i < |hats|
        invariant 0 <= i <= |hats| && selected.None?
        invariant forall j :: 0 <= j < i ==> hats[j].address != address
      {
        if address == hats[i].address {
          selected := Some(hats[i].address);
          break;
        }
        i := i + 1;
      }
    }
    if selected.None? {
      return ValueErrorRaised;
    }
    return Selected(selected.value);
  }

  // ---------------------------------------------------------------------
  // enum_mask_to_string

  /** An IntEnum member: its name and value. */
  datatype Member = Member(name: string, value: nat)

  /** The names of the members that share a bit with the mask, in declaration order. */
  function PresentNames(members: seq<Member>, mask: nat): (ns: seq<string>)
    ensures |ns| <= |members|
  {
    if |members| == 0 then []
    else (PresentNames(members[..|members| - 1], mask)
      + (if And(members[|members| - 1].value, mask) != 0 then [members[|members| - 1].name] else []))
  }

  /** A member is listed exactly when its value and the mask share a set bit. */
  lemma {:induction false} PresentNamesMembers(members: seq<Member>, mask: nat, m: Member)
    requires m in members
    requires forall k :: 0 <= k < |members| && members[k].name == m.name ==> members[k] == m
    ensures m.name in PresentNames(members, mask) <==> exists i: nat :: Bit(m.value, i) == 1 && Bit(mask, i) == 1
  {
    var last := members[|members| - 1];
    var init := members[..|members| - 1];
    AndNonZero(m.value, mask);
    if last == m {
      if m in init {
        PresentNamesMembers(init, mask, m);
      } else {
        NameAbsent(init, mask, m.name);
      }
    } else {
      assert last.name != m.name;
      assert m in init;
      PresentNamesMembers(init, mask, m);
    }
  }

  /** Only names of members are listed. */
  lemma {:induction false} NameAbsent(members: seq<Member>, mask: nat, name: string)
    requires forall k :: 0 <= k < |members| ==> members[k].name != name
    ensures name !in PresentNames(members, mask)
  {
    if |members| > 0 {
      NameAbsent(members[..|members| - 1], mask, name);
    }
  }

  lemma PresentNamesStep(members: seq<Member>, k: nat, mask: nat)
    requires k < |members|
    ensures PresentNames(members[..k + 1], mask)
      == PresentNames(members[..k], mask) + (if And(members[k].value, mask) != 0 then [members[k].name] else [])
  {
    assert members[..k + 1][..k] == members[..k];
  }

  /**
   * enum_mask_to_string: "DEFAULT" for a zero mask, then the names of the
   * members sharing a bit with the mask, in declaration order, joined by
   * ", ". A member whose value is 0 never shares a bit, so it is never listed.
   */
  method EnumMaskToString(members: seq<Member>, mask: nat) returns (s: string)
    ensures s == Join((if mask == 0 then ["DEFAULT"] else []) + PresentNames(members, mask), ", ")
  {
    var names: seq<string> := [];
    if mask == 0 {
      names := names + ["DEFAULT"];
    }
    ghost var head := names;
    assert head == (if mask == 0 then ["DEFAULT"] else []);
    var k := 0;
    while k < |members|
      invariant 0 <= k <= |members|
      invariant names == head + PresentNames(members[..k], mask)
    {
      var item := members[k];
      PresentNamesStep(members, k, mask);
      if And(item.value, mask) != 0 {
        names := names + [item.name];
      }
      k := k + 1;
    }
    assert members[..|members|] == members;
    s := Join(names, ", ");
  }

  // ---------------------------------------------------------------------
  // chan_list_to_mask

  /** The OR of 1 << c over the list. */
  function MaskOf(chans: seq<nat>): (m: nat)
  {
    if |chans| == 0 then 0 else Or(MaskOf(chans[..|chans| - 1]), Pow2(chans[|chans| - 1]))
  }

  /** Bit i of the mask is set exactly when channel i is in the list. */
  lemma {:induction false} MaskOfBits(chans: seq<nat>, i: nat)
    ensures Bit(MaskOf(chans), i) == 1 <==> i in chans
  {
    if |chans| == 0 {
      ZeroBits(i);
    } else {
      var init := chans[..|chans| - 1];
      MaskOfBits(init, i);
      OrBits(MaskOf(init), Pow2(chans[|chans| - 1]), i);
      ShiftedOneBits(chans[|chans| - 1], i);
      assert chans == init + [chans[|chans| - 1]];
    }
  }

  /** Neither order nor repetition in the list changes the mask. */
  lemma MaskOfSetOnly(a: seq<nat>, b: seq<nat>)
    requires forall c :: c in a <==> c in b
    ensures MaskOf(a) == MaskOf(b)
  {
    forall i: nat
      ensures Bit(MaskOf(a), i) == Bit(MaskOf(b), i)
    {
      MaskOfBits(a, i);
      MaskOfBits(b, i);
    }
    BitsDetermine(MaskOf(a), MaskOf(b));
  }

  /** The channels as nats, when none is negative. */
  function Naturals(chans: seq<int>): (ns: seq<nat>)
    requires forall k :: 0 <= k < |chans| ==> chans[k] >= 0
    ensures |ns| == |chans| && forall k :: 0 <= k < |chans| ==> ns[k] == chans[k]
  {
    seq(|chans|, k requires 0 <= k < |chans| => chans[k] as nat)
  }

  /**
   * chan_list_to_mask: the OR of 1 << c over the list. A negative channel
   * makes the shift raise ValueError: None.
   */
  method ChanListToMask(chans: seq<int>) returns (r: Option<nat>)
    ensures r.None? <==> exists k :: 0 <= k < |chans| && chans[k] < 0
    ensures r.Some? ==> r.value == MaskOf(Naturals(chans))
  {
    var mask: nat := 0;
    var k := 0;
    while k < |chans|
      invariant 0 <= k <= |chans|
      invariant forall j :: 0 <= j < k ==> chans[j] >= 0
      invariant mask == MaskOf(Naturals(chans[..k]))
    {
      if chans[k] < 0 {
        return None;
      }
      assert Naturals(chans[..k + 1])[..k] == Naturals(chans[..k]);
      mask := Or(mask, Pow2(chans[k]));
      k := k + 1;
    }
    assert chans[..k] == chans;
    r := Some(mask);
  }

  // ---------------------------------------------------------------------
  // validate_channels

  /** The exception validate_channels raises: the bad-channel message's bounds, or min() of an empty range. */
  datatype Raised = InvalidChannel(low: int, high: int) | EmptyRange

  function ValidateChannels(channels: set<int>, n: int): (r: Option<Raised>)
    ensures r.None? <==> forall c :: c in channels ==> 0 <= c < n
    ensures r == Some(EmptyRange) <==> channels != {} && n <= 0
    ensures r.Some? && r.value.InvalidChannel? ==> r.value == InvalidChannel(0, n - 1)
  {
    if !exists c :: c in channels && !(0 <= c < n) then None
    else if n <= 0 then Some(EmptyRange)
    else Some(InvalidChannel(0, n - 1))
  }

  /** Every subset of an accepted set is accepted, and accepted sets are closed under union. */
  lemma ValidateChannelsClosed(a: set<int>, b: set<int>, n: int)
    requires ValidateChannels(a, n).None?
    ensures b <= a ==> ValidateChannels(b, n).None?
    ensures ValidateChannels(b, n).None? ==> ValidateChannels(a + b, n).None?
  {
  }
}
