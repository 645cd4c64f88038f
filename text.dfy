// Text the example programs build with printf, strcat and str.join:
// decimal numerals, separator-joined lists and the C idiom that cuts a
// string at its last comma.

module Text {
  import opened DaqHats

  function DigitChar(d: nat): (c: char)
    requires d < 10
    ensures '0' <= c <= '9' && c as int - '0' as int == d
  {
    "0123456789"[d]
  }

  predicate AllDigits(s: string)
  {
    forall k :: 0 <= k < |s| ==> '0' <= s[k] <= '9'
  }

  /** The numeral printf writes for %d or %u of a non-negative value. */
  function Decimal(n: nat): (s: string)
    ensures |s| > 0 && AllDigits(s)
    ensures n < 10 <==> |s| == 1
  {
    if n < 10 then [DigitChar(n)] else Decimal(n / 10) + [DigitChar(n % 10)]
  }

  /** The value of a string of decimal digits. */
  function DigitsValue(s: string): (n: nat)
    requires AllDigits(s)
  {
    if |s| == 0 then 0 else 10 * DigitsValue(s[..|s| - 1]) + (s[|s| - 1] as int - '0' as int)
  }

  /** Reading back a numeral gives the number it was written from. */
  lemma {:induction false} DecimalRoundTrip(n: nat)
    ensures DigitsValue(Decimal(n)) == n
  {
    if n >= 10 {
      DecimalRoundTrip(n / 10);
      var s := Decimal(n);
      assert s[..|s| - 1] == Decimal(n / 10);
    }
  }

  /** The numeral printf writes for %d of any int. */
  function SignedDecimal(n: int): (s: string)
    ensures |s| > 0 && (s[0] == '-' <==> n < 0)
  {
    if n < 0 then "-" + Decimal(-n) else Decimal(n)
  }

  /** The parts with the separator between them, as sep.join(parts) in Python. */
  function Join(parts: seq<string>, sep: string): (s: string)
  {
    if |parts| == 0 then ""
    else if |parts| == 1 then parts[0]
    else Join(parts[..|parts| - 1], sep) + sep + parts[|parts| - 1]
  }

  /** Every part followed by the separator: what a strcat loop appends. */
  function Terminated(parts: seq<string>, sep: string): (s: string)
  {
    if |parts| == 0 then "" else Terminated(parts[..|parts| - 1], sep) + parts[|parts| - 1] + sep
  }

  lemma TerminatedSnoc(parts: seq<string>, p: string, sep: string)
    ensures Terminated(parts + [p], sep) == Terminated(parts, sep) + p + sep
  {
    assert (parts + [p])[..|parts|] == parts;
  }

  /** A non-empty terminated list is the joined list plus one trailing separator. */
  lemma {:induction false} TerminatedJoin(parts: seq<string>, sep: string)
    requires |parts| > 0
    ensures Terminated(parts, sep) == Join(parts, sep) + sep
  {
    var init := parts[..|parts| - 1];
    if |init| > 0 {
      TerminatedJoin(init, sep);
    } else {
      assert Terminated(init, sep) == "";
    }
  }

  /** Where strrchr finds c: the last index holding c, if any. */
  function LastIndex(s: string, c: char): (r: Option<nat>)
    ensures r.Some? ==> r.value < |s| && s[r.value] == c && forall j :: r.value < j < |s| ==> s[j] != c
    ensures r.None? ==> forall j :: 0 <= j < |s| ==> s[j] != c
  {
    if |s| == 0 then None
    else if s[|s| - 1] == c then Some(|s| - 1)
    else LastIndex(s[..|s| - 1], c)
  }

  /**
   * The statement *strrchr(s, c) = '\0': the string ends where its last c
   * was. With no c in s, strrchr returns NULL and the store goes through a
   * NULL address; that is None.
   */
  function CutAtLast(s: string, c: char): (r: Option<string>)
    ensures r.None? <==> c !in s
    ensures r.Some? ==> (|r.value| < |s| && r.value == s[..|r.value|] && s[|r.value|] == c
      && c !in s[|r.value| + 1..])
  {
    match LastIndex(s, c)
    case None => None
    case Some(k) => Some(s[..k])
  }

  /** Cutting a terminated ", " list at its last comma leaves the joined list. */
  lemma CutTerminated(parts: seq<string>)
    requires |parts| > 0
    ensures CutAtLast(Terminated(parts, ", "), ',') == Some(Join(parts, ", "))
  {
    TerminatedJoin(parts, ", ");
    var x := Join(parts, ", ");
    var s := Terminated(parts, ", ");
    assert s[|x|] == ',' && s[|x| + 1] == ' ' && |s| == |x| + 2;
    var k := LastIndex(s, ',');
    assert k.Some? && k.value == |x|;
    assert s[..|x|] == x;
  }
}
