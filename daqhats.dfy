// Shared vocabulary of the daqhats library: result codes, option flags,
// status bits, board identifiers, fixed-width integers and the bit and
// byte arithmetic the C sources write with shifts and masks.

module DaqHats {

  // ---------------------------------------------------------------------
  // Fixed-width integers (C uint8_t / uint16_t / uint32_t)

  type Byte = x: int | 0 <= x < 0x100
  type U16 = x: int | 0 <= x < 0x1_0000
  type U32 = x: int | 0 <= x < 0x1_0000_0000

  /** Truncating conversion to uint8_t. */
  function ToByte(x: int): (b: Byte)
    ensures 0 <= x < 0x100 ==> b == x
    ensures (b - x) % 0x100 == 0
  {
    x % 0x100
  }

  /** Truncating conversion to uint32_t. */
  function ToU32(x: int): (r: U32)
    ensures 0 <= x < 0x1_0000_0000 ==> r == x
    ensures (r - x) % 0x1_0000_0000 == 0
  {
    x % 0x1_0000_0000
  }

  // ---------------------------------------------------------------------
  // Wrappers

  datatype Option<T> = None | Some(value: T)

  // ---------------------------------------------------------------------
  // Result codes of the C library (daqhats.h)

  datatype ResultCode =
    | Success
    | BadParameter
    | Busy
    | Timeout
    | LockTimeout
    | InvalidDevice
    | ResourceUnavail
    | CommsFailure
    | Undefined

  /** The integer value each result code has in the C API. */
  function Code(r: ResultCode): (c: int)
    ensures c <= 0
    ensures c == 0 <==> r == Success
  {
    match r
    case Success => 0
    case BadParameter => -1
    case Busy => -2
    case Timeout => -3
    case LockTimeout => -4
    case InvalidDevice => -5
    case ResourceUnavail => -6
    case CommsFailure => -7
    case Undefined => -10
  }

  /** The result code that an integer denotes, if any. */
  function FromCode(c: int): (r: Option<ResultCode>)
    ensures r.Some? ==> Code(r.value) == c
  {
    if c == 0 then Some(Success)
    else if c == -1 then Some(BadParameter)
    else if c == -2 then Some(Busy)
    else if c == -3 then Some(Timeout)
    else if c == -4 then Some(LockTimeout)
    else if c == -5 then Some(InvalidDevice)
    else if c == -6 then Some(ResourceUnavail)
    else if c == -7 then Some(CommsFailure)
    else if c == -10 then Some(Undefined)
    else None
  }

  lemma CodeRoundTrip(r: ResultCode)
    ensures FromCode(Code(r)) == Some(r)
  {
  }

  const MAX_NUMBER_HATS: int := 8

  // Option flags
  const OPTS_DEFAULT: int := 0x0000
  const OPTS_NOSCALEDATA: int := 0x0001
  const OPTS_NOCALIBRATEDATA: int := 0x0002
  const OPTS_EXTCLOCK: int := 0x0004
  const OPTS_EXTTRIGGER: int := 0x0008
  const OPTS_CONTINUOUS: int := 0x0010

  // Trigger modes
  const TRIG_RISING_EDGE: int := 0
  const TRIG_FALLING_EDGE: int := 1
  const TRIG_ACTIVE_HIGH: int := 2
  const TRIG_ACTIVE_LOW: int := 3

  // Scan status bits
  const STATUS_HW_OVERRUN: int := 0x0001
  const STATUS_BUFFER_OVERRUN: int := 0x0002
  const STATUS_TRIGGERED: int := 0x0004
  const STATUS_RUNNING: int := 0x0008

  // Board identifiers
  const HAT_ID_ANY: int := 0
  const HAT_ID_MCC_118: int := 0x0142
  const HAT_ID_MCC_118_BOOTLOADER: int := 0x8142
  const HAT_ID_MCC_128: int := 0x0146
  const HAT_ID_MCC_134: int := 0x0143
  const HAT_ID_MCC_152: int := 0x0144
  const HAT_ID_MCC_172: int := 0x0145

  // ---------------------------------------------------------------------
  // Bit arithmetic on non-negative integers

  function Pow2(n: nat): (p: nat)
    ensures p >= 1
  {
    if n == 0 then 1 else 2 * Pow2(n - 1)
  }

  /** Bit i of x, that is (x >> i) & 1. */
  function Bit(x: nat, i: nat): (b: nat)
    ensures b <= 1
  {
    (x / Pow2(i)) % 2
  }

  /** The number of set bits among bits 0 .. n-1 of x. */
  function PopCount(x: nat, n: nat): (c: nat)
    ensures c <= n
  {
    if n == 0 then 0 else PopCount(x, n - 1) + Bit(x, n - 1)
  }

  /** The channel-list loop of the scan starts: counts the set bits among bits 0 .. n-1 of the mask. */
  method CountChannels(mask: nat, n: nat) returns (count: nat)
    ensures count == PopCount(mask, n)
  {
    count := 0;
    var channel := 0;
    while channel < n
      invariant 0 <= channel <= n && count == PopCount(mask, channel)
    {
      if Bit(mask, channel) == 1 {
        count := count + 1;
      }
      channel := channel + 1;
    }
  }

  /** The positions of the set bits among bits 0 .. n-1 of x, ascending. */
  function SetBits(x: nat, n: nat): (s: seq<nat>)
    ensures |s| <= n
    ensures forall i :: 0 <= i < |s| ==> s[i] < n
  {
    if n == 0 then [] else SetBits(x, n - 1) + (if Bit(x, n - 1) == 1 then [n - 1] else [])
  }

  predicate StrictlyIncreasing(s: seq<nat>)
  {
    forall i, j :: 0 <= i < j < |s| ==> s[i] < s[j]
  }

  lemma {:induction false} SetBitsSpec(x: nat, n: nat)
    ensures |SetBits(x, n)| == PopCount(x, n)
    ensures StrictlyIncreasing(SetBits(x, n))
    ensures forall i :: 0 <= i < |SetBits(x, n)| ==> SetBits(x, n)[i] < n
    ensures forall c: nat :: c in SetBits(x, n) <==> c < n && Bit(x, c) == 1
  {
    if n > 0 {
      SetBitsSpec(x, n - 1);
    }
  }

  /** The low n bits of x, x mod 2^n, are bit n-1 above the low n-1 bits. */
  lemma {:induction false} LowBitsStep(x: nat, n: nat)
    requires n > 0
    ensures x % Pow2(n) == x % Pow2(n - 1) + Pow2(n - 1) * Bit(x, n - 1)
  {
    var p := Pow2(n - 1);
    assert Pow2(n) == 2 * p;
    ModDouble(x, p);
  }

  /** The remainder modulo 2p is the remainder modulo p, plus p when the next quotient bit is set. */
  lemma ModDouble(x: nat, p: nat)
    requires p > 0
    ensures x % (2 * p) == x % p + p * ((x / p) % 2)
  {
    var q, r := x / p, x % p;
    var q2, b := q / 2, q % 2;
    assert x == q * p + r;
    assert q == 2 * q2 + b;
    var bp := if b == 1 then p else 0;
    assert q * p == q2 * (2 * p) + bp by {
      MulSplit(q2, b, p);
    }
    DivUnique(x, 2 * p, q2, bp + r);
  }

  lemma MulSplit(a: int, b: int, c: int)
    ensures (2 * a + b) * c == a * (2 * c) + b * c
  {
  }

  /** A value with no set bit among its low n bits is a multiple of 2^n. */
  lemma {:induction false} PopCountZero(x: nat, n: nat)
    requires PopCount(x, n) == 0
    ensures x % Pow2(n) == 0
  {
    if n > 0 {
      PopCountZero(x, n - 1);
      LowBitsStep(x, n);
    }
  }

  /** A non-zero byte has between one and eight set bits. */
  lemma PopCountByte(x: Byte)
    requires x != 0
    ensures 0 < PopCount(x, 8) <= 8
  {
    Pow2Eight();
    if PopCount(x, 8) == 0 {
      PopCountZero(x, 8);
      assert false;
    }
  }

  lemma Pow2Eight()
    ensures Pow2(8) == 256
  {
    assert Pow2(1) == 2 && Pow2(2) == 4 && Pow2(3) == 8 && Pow2(4) == 16;
    assert Pow2(5) == 32 && Pow2(6) == 64 && Pow2(7) == 128;
  }

  lemma {:induction false} Pow2Monotone(a: nat, b: nat)
    requires a <= b
    ensures Pow2(a) <= Pow2(b)
  {
    if a < b {
      Pow2Monotone(a, b - 1);
    }
  }

  /** 2^(a+b) = 2^a * 2^b. */
  lemma {:induction false} Pow2Add(a: nat, b: nat)
    ensures Pow2(a + b) == Pow2(a) * Pow2(b)
  {
    if b > 0 {
      Pow2Add(a, b - 1);
      assert Pow2(a + b) == 2 * Pow2(a + b - 1);
    }
  }

  lemma Pow2ThirtyTwo()
    ensures Pow2(16) == 0x1_0000 && Pow2(32) == 0x1_0000_0000
  {
    Pow2Eight();
    Pow2Add(8, 8);
    Pow2Add(16, 16);
  }

  /** Shifting right by i + 1 is shifting right by i and then by one. */
  lemma ShiftStep(x: nat, i: nat)
    ensures x / Pow2(i + 1) == (x / Pow2(i)) / 2
    ensures Bit(x, i + 1) == Bit(x / 2, i)
  {
    var p := Pow2(i);
    assert Pow2(i + 1) == p * 2;
    DivDiv(x, p, 2);
    DivDiv(x, 2, p);
  }

  /** Dividing by a * b is dividing by a and then by b. */
  lemma DivDiv(x: nat, a: nat, b: nat)
    requires a > 0 && b > 0
    ensures x / (a * b) == (x / a) / b
  {
    var q, r := x / a, x % a;
    var q2, r2 := q / b, q % b;
    assert x == q2 * (a * b) + (r2 * a + r) by {
      assert x == q * a + r && q == q2 * b + r2;
    }
    assert r2 * a + r < a * b by {
      assert r2 <= b - 1;
      MulLeq(r2, b - 1, a);
    }
    DivUnique(x, a * b, q2, r2 * a + r);
  }

  lemma MulLeq(x: nat, y: nat, a: nat)
    requires x <= y
    ensures x * a <= y * a
  {
  }

  /** Bits at and above position i of a value below 2^i are all clear. */
  lemma {:induction false} SetBitsAbove(x: nat, i: nat, n: nat)
    requires x < Pow2(i) && i <= n
    ensures SetBits(x, n) == SetBits(x, i) && PopCount(x, n) == PopCount(x, i)
  {
    if n > i {
      SetBitsAbove(x, i, n - 1);
      Pow2Monotone(i, n - 1);
      DivUnique(x, Pow2(n - 1), 0, x);
      assert Bit(x, n - 1) == 0;
    }
  }

  /** The set bits below i come first, in the same order, among those below n. */
  lemma {:induction false} SetBitsPrefix(x: nat, i: nat, n: nat)
    requires i <= n
    ensures |SetBits(x, i)| <= |SetBits(x, n)| && SetBits(x, n)[..|SetBits(x, i)|] == SetBits(x, i)
  {
    if i < n {
      SetBitsPrefix(x, i, n - 1);
      var s := SetBits(x, n - 1);
      assert SetBits(x, n)[..|s|] == s;
    }
  }

  lemma {:induction false} PopCountMonotone(x: nat, a: nat, b: nat)
    requires a <= b
    ensures PopCount(x, a) <= PopCount(x, b)
  {
    if a < b {
      PopCountMonotone(x, a, b - 1);
    }
  }

  // ---------------------------------------------------------------------
  // Division facts the solver does not find by itself

  /** Quotient and remainder are unique. */
  lemma DivUnique(x: int, c: int, q: int, r: int)
    requires c > 0 && 0 <= r < c && x == q * c + r
    ensures x / c == q && x % c == r
  {
    var q' := x / c;
    var r' := x % c;
    assert x == q' * c + r';
    if q' < q {
      assert (q - q') * c >= c by { MulAtLeast(q - q', c); }
      assert false;
    } else if q' > q {
      assert (q' - q) * c >= c by { MulAtLeast(q' - q, c); }
      assert false;
    }
  }

  /** Reducing a running sum modulo 256 before adding does not change the reduced total. */
  lemma ModAddByte(x: nat, b: nat)
    ensures (x % 256 + b) % 256 == (x + b) % 256
  {
    var q, r := x / 256, x % 256;
    var q2, r2 := (r + b) / 256, (r + b) % 256;
    assert x + b == (q + q2) * 256 + r2;
    DivUnique(x + b, 256, q + q2, r2);
  }

  lemma MulAtLeast(a: int, c: int)
    requires a >= 1 && c > 0
    ensures a * c >= c
  {
  }

  lemma MulDivCancel(q: nat, c: nat)
    requires c > 0
    ensures (q * c) / c == q && (q * c) % c == 0
  {
    DivUnique(q * c, c, q, 0);
  }

  // ---------------------------------------------------------------------
  // Register bytes, where the C code does read-modify-write with masks

  /** Bit i of a register byte, (x >> i) & 1. */
  function RegBit(x: bv8, i: bv8): (b: bv8)
    requires i <= 8
    ensures b <= 1
  {
    (x >> i) & 1
  }

  /** The C expression (x & ~(1 << i)) | (v << i), truncated to uint8_t. */
  function RegSetBit(x: bv8, i: bv8, v: bv8): (r: bv8)
    requires i <= 8 && v <= 1
    ensures i < 8 ==> RegBit(r, i) == v
    ensures forall j: bv8 :: j < 8 && j != i ==> RegBit(r, j) == RegBit(x, j)
    ensures i == 8 ==> r == x
  {
    RegSetBitBits(x, i, v);
    (x & !(1 << i)) | (v << i)
  }

  lemma RegSetBitBits(x: bv8, i: bv8, v: bv8)
    requires i <= 8 && v <= 1
    ensures var r := (x & !(1 << i)) | (v << i);
      (i < 8 ==> RegBit(r, i) == v) && (i == 8 ==> r == x) &&
      forall j: bv8 :: j < 8 && j != i ==> RegBit(r, j) == RegBit(x, j)
  {
    forall j: bv8 | j < 8 && j != i
      ensures RegBit((x & !(1 << i)) | (v << i), j) == RegBit(x, j)
    {
      RegSetBitOther(x, i, v, j);
    }
  }

  /** Setting bit i leaves every other bit j as it was. */
  lemma RegSetBitOther(x: bv8, i: bv8, v: bv8, j: bv8)
    requires i <= 8 && v <= 1 && j < 8 && j != i
    ensures RegBit((x & !(1 << i)) | (v << i), j) == RegBit(x, j)
  {
  }

  /** Two register bytes with the same eight bits are equal. */
  lemma RegBitsDetermine(x: bv8, y: bv8)
    requires forall j: bv8 :: j < 8 ==> RegBit(x, j) == RegBit(y, j)
    ensures x == y
  {
    assert RegBit(x, 0) == RegBit(y, 0) && RegBit(x, 1) == RegBit(y, 1);
    assert RegBit(x, 2) == RegBit(y, 2) && RegBit(x, 3) == RegBit(y, 3);
    assert RegBit(x, 4) == RegBit(y, 4) && RegBit(x, 5) == RegBit(y, 5);
    assert RegBit(x, 6) == RegBit(y, 6) && RegBit(x, 7) == RegBit(y, 7);
  }

  // ---------------------------------------------------------------------
  // Little-endian byte encodings

  function LE16(x: U16): (b: seq<Byte>)
    ensures |b| == 2 && b[0] as int + 0x100 * (b[1] as int) == x
  {
    [x % 0x100, x / 0x100]
  }

  function LE32(x: U32): (b: seq<Byte>)
    ensures |b| == 4
    ensures FromLE32(b) == x
  {
    LE32Split(x);
    [x % 0x100, (x / 0x100) % 0x100, (x / 0x1_0000) % 0x100, x / 0x100_0000]
  }

  lemma LE32Split(x: U32)
    ensures x == x % 0x100 + 0x100 * ((x / 0x100) % 0x100)
      + 0x1_0000 * ((x / 0x1_0000) % 0x100) + 0x100_0000 * (x / 0x100_0000)
  {
    var a, b, c := x / 0x100, x / 0x1_0000, x / 0x100_0000;
    assert x == 0x100 * a + x % 0x100;
    assert a == 0x100 * b + a % 0x100;
    assert b == 0x100 * c + b % 0x100;
    assert a / 0x100 == b;
    assert b / 0x100 == c;
  }

  function FromLE32(b: seq<Byte>): (x: U32)
    requires |b| == 4
  {
    b[0] as int + 0x100 * (b[1] as int) + 0x1_0000 * (b[2] as int) + 0x100_0000 * (b[3] as int)
  }

  // ---------------------------------------------------------------------
  // Bitwise operators on unbounded non-negative integers

  /** a & b */
  function And(a: nat, b: nat): (r: nat)
    decreases a
  {
    if a == 0 || b == 0 then 0 else 2 * And(a / 2, b / 2) + (if a % 2 == 1 && b % 2 == 1 then 1 else 0)
  }

  /** a | b */
  function Or(a: nat, b: nat): (r: nat)
    decreases a + b
  {
    if a == 0 then b else if b == 0 then a else 2 * Or(a / 2, b / 2) + (if a % 2 == 1 || b % 2 == 1 then 1 else 0)
  }

  /** Bit 0 and the bits above it of a value 2q + r. */
  lemma BitsOfDouble(q: nat, r: nat, i: nat)
    requires r <= 1
    ensures Bit(2 * q + r, 0) == r
    ensures Bit(2 * q + r, i + 1) == Bit(q, i)
  {
    var x := 2 * q + r;
    assert x / 2 == q && x % 2 == r;
    ShiftStep(x, i);
    assert Pow2(0) == 1;
  }

  lemma {:induction false} AndBits(a: nat, b: nat, i: nat)
    ensures Bit(And(a, b), i) == (if Bit(a, i) == 1 && Bit(b, i) == 1 then 1 else 0)
    decreases a
  {
    if a == 0 || b == 0 {
      ZeroBits(i);
    } else {
      var q := And(a / 2, b / 2);
      BitsOfDouble(q, if a % 2 == 1 && b % 2 == 1 then 1 else 0, if i > 0 then i - 1 else 0);
      BitsOfDouble(a / 2, a % 2, if i > 0 then i - 1 else 0);
      BitsOfDouble(b / 2, b % 2, if i > 0 then i - 1 else 0);
      if i > 0 {
        AndBits(a / 2, b / 2, i - 1);
      }
    }
  }

  lemma {:induction false} OrBits(a: nat, b: nat, i: nat)
    ensures Bit(Or(a, b), i) == (if Bit(a, i) == 1 || Bit(b, i) == 1 then 1 else 0)
    decreases a + b
  {
    if a == 0 {
      ZeroBits(i);
    } else if b == 0 {
      ZeroBits(i);
    } else {
      var q := Or(a / 2, b / 2);
      var r := if a % 2 == 1 || b % 2 == 1 then 1 else 0;
      BitsOfDouble(q, r, if i > 0 then i - 1 else 0);
      BitsOfDouble(a / 2, a % 2, if i > 0 then i - 1 else 0);
      BitsOfDouble(b / 2, b % 2, if i > 0 then i - 1 else 0);
      if i > 0 {
        OrBits(a / 2, b / 2, i - 1);
      }
    }
  }

  lemma ZeroBits(i: nat)
    ensures Bit(0, i) == 0
  {
  }

  /** 1 << c has bit c alone set. */
  lemma {:induction false} ShiftedOneBits(c: nat, i: nat)
    ensures Bit(Pow2(c), i) == (if i == c then 1 else 0)
  {
    if c == 0 {
      BitsOfDouble(0, 1, if i > 0 then i - 1 else 0);
      ZeroBits(if i > 0 then i - 1 else 0);
    } else {
      BitsOfDouble(Pow2(c - 1), 0, if i > 0 then i - 1 else 0);
      if i > 0 {
        ShiftedOneBits(c - 1, i - 1);
      }
    }
  }

  /** A value is determined by its bits. */
  lemma {:induction false} BitsDetermine(x: nat, y: nat)
    requires forall i: nat :: Bit(x, i) == Bit(y, i)
    ensures x == y
    decreases x + y
  {
    if x != y {
      BitsOfDouble(x / 2, x % 2, 0);
      BitsOfDouble(y / 2, y % 2, 0);
      forall i: nat
        ensures Bit(x / 2, i) == Bit(y / 2, i)
      {
        BitsOfDouble(x / 2, x % 2, i);
        BitsOfDouble(y / 2, y % 2, i);
        assert Bit(x, i + 1) == Bit(y, i + 1);
      }
      BitsDetermine(x / 2, y / 2);
    }
  }

  /** a & b is non-zero exactly when a and b share a set bit. */
  lemma AndNonZero(a: nat, b: nat)
    ensures And(a, b) != 0 <==> exists i: nat :: Bit(a, i) == 1 && Bit(b, i) == 1
  {
    if And(a, b) != 0 {
      AndSharedBit(a, b);
    } else {
      AndNoSharedBit(a, b);
    }
  }

  lemma AndSharedBit(a: nat, b: nat)
    requires And(a, b) != 0
    ensures exists i: nat :: Bit(a, i) == 1 && Bit(b, i) == 1
  {
    var i := SomeBit(And(a, b));
    AndBits(a, b, i);
  }

  lemma AndNoSharedBit(a: nat, b: nat)
    requires And(a, b) == 0
    ensures forall i: nat :: !(Bit(a, i) == 1 && Bit(b, i) == 1)
  {
    forall i: nat
      ensures !(Bit(a, i) == 1 && Bit(b, i) == 1)
    {
      AndBits(a, b, i);
      ZeroBits(i);
    }
  }

  /** A set bit of a non-zero value. */
  lemma {:induction false} SomeBit(x: nat) returns (i: nat)
    requires x > 0
    ensures Bit(x, i) == 1
    decreases x
  {
    BitsOfDouble(x / 2, x % 2, 0);
    if x % 2 == 1 {
      i := 0;
    } else {
      var j := SomeBit(x / 2);
      BitsOfDouble(x / 2, x % 2, j);
      i := j + 1;
    }
  }
}
