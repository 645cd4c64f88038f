// The analog-input scan engine shared by the MCC 118, MCC 128 and MCC 172
// libraries (lib/mcc118.c, lib/mcc128.c, lib/mcc172.c): a ring buffer that
// the scan thread fills from the device and a_in_scan_read drains.
//
// The background thread and the clock become an explicit interleaving: a
// producer step is one iteration of _scan_thread, and every pass of the
// a_in_scan_read loop may be preceded by one producer step.  Device replies
// and the expiry of the timeout are parameters.  Calibration and scaling
// are floating point and are left out; a stored sample keeps the raw code
// and the index of the calibration coefficients that would be applied.

module ScanEngine {
  import opened DaqHats

  // ---------------------------------------------------------------------
  // Board families

  datatype Family = Mcc118 | Mcc128 | Mcc172

  /** MAX_SAMPLES_READ: the most samples one data command returns. */
  function MaxSamplesRead(f: Family): (n: nat)
    ensures n > 0
  {
    match f
    case Mcc118 => 512
    case Mcc128 => (4096 - 5) / 2
    case Mcc172 => (4096 - 5) / 3
  }

  /** A sample in the scan buffer. */
  datatype Sample = Sample(code: int, coefficient: nat)

  /** COUNT_NORMALIZE(x, c): x rounded down to a whole number of scans. */
  function Normalize(x: nat, c: nat): (r: nat)
    requires c > 0
    ensures r <= x && x - r < c && r % c == 0
  {
    MulDivCancel(x / c, c);
    (x / c) * c
  }

  function Min(a: int, b: int): int { if a < b then a else b }

  /** The scan status reply of the device (CMD_AINSCANSTATUS). */
  datatype DeviceStatus = DeviceStatus(running: bool, hwOverrun: bool, triggered: bool,
                                       available: nat, maxReadNow: nat)

  function StatusReplySize(f: Family): nat
  {
    if f == Mcc128 then 7 else 5
  }

  /**
   * Decodes the status reply: flags in byte 0, then the available count
   * and the largest count readable now, 16-bit little-endian on the MCC 118
   * and MCC 172 and 24-bit little-endian on the MCC 128.
   */
  function DecodeStatus(f: Family, b: seq<Byte>): (s: DeviceStatus)
    requires |b| == StatusReplySize(f)
    ensures s.running <==> Bit(b[0], 0) == 1
    ensures s.hwOverrun <==> Bit(b[0], 1) == 1
    ensures s.triggered <==> Bit(b[0], 2) == 1
    ensures f != Mcc128 ==> s.available < 0x1_0000 && s.maxReadNow < 0x1_0000
    ensures f == Mcc128 ==> s.available < 0x100_0000 && s.maxReadNow < 0x100_0000
  {
    if f == Mcc128 then
      DeviceStatus(Bit(b[0], 0) == 1, Bit(b[0], 1) == 1, Bit(b[0], 2) == 1,
                   b[1] as int + 0x100 * (b[2] as int) + 0x1_0000 * (b[3] as int),
                   b[4] as int + 0x100 * (b[5] as int) + 0x1_0000 * (b[6] as int))
    else
      DeviceStatus(Bit(b[0], 0) == 1, Bit(b[0], 1) == 1, Bit(b[0], 2) == 1,
                   b[1] as int + 0x100 * (b[2] as int),
                   b[3] as int + 0x100 * (b[4] as int))
  }

  /** The thread reads only when the scan stopped, the threshold is reached or the device would otherwise lose data. */
  predicate WantsRead(s: DeviceStatus, threshold: nat)
  {
    !s.running || s.available >= threshold || s.available > s.maxReadNow
  }

  /**
   * The number of samples one producer step reads: bounded by what the
   * device has, what it can send now, one transfer and the room before
   * the end of the buffer, and the largest such count when a read is due.
   */
  function ReadCount(f: Family, s: DeviceStatus, threshold: nat, size: nat, writeIndex: nat): (n: nat)
    requires writeIndex < size
    ensures n <= s.available && n <= s.maxReadNow && n <= MaxSamplesRead(f) && n <= size - writeIndex
    ensures !WantsRead(s, threshold) ==> n == 0
    ensures WantsRead(s, threshold) ==>
      (n == s.available || n == s.maxReadNow || n == MaxSamplesRead(f) || n == size - writeIndex)
  {
    if WantsRead(s, threshold) then
      Min(Min(Min(s.available, s.maxReadNow), MaxSamplesRead(f)), size - writeIndex)
    else 0
  }

  /**
   * The end-of-scan test once the device reports that it stopped: all
   * available samples were taken in this step (MCC 118, MCC 172), or the
   * clamped available count is zero (MCC 128).
   */
  predicate ScanFinished(f: Family, s: DeviceStatus, readCount: nat)
  {
    !s.running &&
    if f == Mcc128 then Min(Min(s.available, s.maxReadNow), MaxSamplesRead(f)) == 0
    else s.available == readCount
  }

  /** The MCC 128 reports 65535 - code; the others store the code as delivered. */
  function Convert(f: Family, code: int): int
  {
    if f == Mcc128 then 0xFFFF - code else code
  }

  /** The next channel index, wrapping after the last channel of the scan. */
  function NextChannel(c: nat, count: nat): (r: nat)
    requires count > 0
    ensures r < count
  {
    if c + 1 >= count then 0 else c + 1
  }

  /** The channel index after k samples starting at channel c. */
  function ChannelAfter(c: nat, k: nat, count: nat): (r: nat)
    requires count > 0
    ensures r < count
  {
    if k == 0 then (if c < count then c else 0) else NextChannel(ChannelAfter(c, k - 1, count), count)
  }

  /** Advancing a then b samples is advancing a + b samples. */
  lemma {:induction false} ChannelAfterAdd(c: nat, a: nat, b: nat, count: nat)
    requires count > 0 && c < count
    ensures ChannelAfter(c, a + b, count) == ChannelAfter(ChannelAfter(c, a, count), b, count)
  {
    if b > 0 {
      ChannelAfterAdd(c, a, b - 1, count);
    }
  }

  /** Before the wrap the channel index simply counts up. */
  lemma {:induction false} ChannelAfterCounts(c: nat, k: nat, count: nat)
    requires c + k < count
    ensures ChannelAfter(c, k, count) == c + k
  {
    if k > 0 {
      ChannelAfterCounts(c, k - 1, count);
    }
  }

  /** After a whole scan the channel index is back where it started. */
  lemma ChannelAfterPeriod(c: nat, k: nat, count: nat)
    requires count > 0 && c < count
    ensures ChannelAfter(c, k + count, count) == ChannelAfter(c, k, count)
  {
    ChannelAfterCounts(c, count - 1 - c, count);
    assert ChannelAfter(c, count - c, count) == 0;
    ChannelAfterCounts(0, c, count);
    ChannelAfterAdd(c, count - c, c, count);
    assert ChannelAfter(c, count, count) == c;
    ChannelAfterAdd(c, count, k, count);
    ChannelAfterAdd(c, k, count, count);
    var m := ChannelAfter(c, k, count);
    ChannelAfterCounts(m, count - 1 - m, count);
    ChannelAfterCounts(0, m, count);
    ChannelAfterAdd(m, count - m, m, count);
  }

  /** The channel index advances modulo the channel count. */
  lemma {:induction false} ChannelAfterMod(c: nat, k: nat, count: nat)
    requires count > 0 && c < count
    ensures ChannelAfter(c, k, count) == (c + k) % count
  {
    if k == 0 {
      DivUnique(c, count, 0, c);
    } else {
      ChannelAfterMod(c, k - 1, count);
      ModSucc(c + k - 1, count);
    }
  }

  /** Adding one to x adds one to its remainder, wrapping to 0 at n. */
  lemma ModSucc(x: nat, n: nat)
    requires n > 0
    ensures (x + 1) % n == (if x % n + 1 >= n then 0 else x % n + 1)
  {
    var q, p := x / n, x % n;
    assert x == q * n + p;
    if p + 1 >= n {
      assert (q + 1) * n == q * n + n;
      DivUnique(x + 1, n, q + 1, 0);
    } else {
      DivUnique(x + 1, n, q, p + 1);
    }
  }

  /**
   * The samples a producer step stores.  The MCC 118 and MCC 172 take the
   * coefficients of each sample's own channel; the MCC 128 fixes the
   * range of the block's first sample for the whole block.
   */
  function Block(f: Family, codes: seq<int>, c0: nat, count: nat, ranges: seq<nat>): (b: seq<Sample>)
    requires count > 0 && c0 < count && |ranges| == count
    ensures |b| == |codes|
    ensures forall k :: 0 <= k < |b| ==> b[k].code == Convert(f, codes[k])
    ensures f == Mcc128 ==> forall k :: 0 <= k < |b| ==> b[k].coefficient == ranges[c0]
    ensures f != Mcc128 ==> forall k :: 0 <= k < |b| ==> b[k].coefficient == ChannelAfter(c0, k, count)
  {
    seq(|codes|, k requires 0 <= k < |codes| =>
      Sample(Convert(f, codes[k]), if f == Mcc128 then ranges[c0] else ChannelAfter(c0, k, count)))
  }

  // ---------------------------------------------------------------------
  // The ring buffer window

  function Wrap(i: nat, n: nat): (j: nat)
    requires 0 < n && i < 2 * n
    ensures j < n && (j == i || j == i - n)
  {
    if i < n then i else i - n
  }

  /** The len samples of buf starting at start, wrapping at the end. */
  function Window(buf: seq<Sample>, start: nat, len: nat): (w: seq<Sample>)
    requires start < |buf| && len <= |buf|
    ensures |w| == len
    ensures forall k :: 0 <= k < len ==> w[k] == buf[Wrap(start + k, |buf|)]
  {
    seq(len, k requires 0 <= k < len => buf[Wrap(start + k, |buf|)])
  }

  /** buf with the samples of block written from index w on. */
  function Overwrite(buf: seq<Sample>, w: nat, block: seq<Sample>): (b: seq<Sample>)
    requires w + |block| <= |buf|
    ensures |b| == |buf|
  {
    buf[..w] + block + buf[w + |block|..]
  }

  /** Writing one more sample extends an overwrite by that sample. */
  lemma OverwriteStep(buf: seq<Sample>, w: nat, block: seq<Sample>, i: nat)
    requires i < |block| && w + |block| <= |buf|
    ensures Overwrite(buf, w, block[..i])[w + i := block[i]] == Overwrite(buf, w, block[..i + 1])
  {
    var lhs := Overwrite(buf, w, block[..i])[w + i := block[i]];
    var rhs := Overwrite(buf, w, block[..i + 1]);
    forall j | 0 <= j < |buf| ensures lhs[j] == rhs[j] {
      if w <= j < w + i + 1 {
        assert rhs[w + (j - w)] == block[..i + 1][j - w];
      }
    }
  }

  /** Writing a block right behind the window extends the window by that block. */
  lemma WindowAppend(buf: seq<Sample>, r: nat, d: nat, w: nat, block: seq<Sample>)
    requires r < |buf| && w < |buf|
    requires d + |block| <= |buf| && w + |block| <= |buf|
    requires r + d == w || r + d == w + |buf|
    ensures Window(Overwrite(buf, w, block), r, d + |block|) == Window(buf, r, d) + block
  {
    var n := |buf|;
    var buf' := Overwrite(buf, w, block);
    var lhs := Window(buf', r, d + |block|);
    var rhs := Window(buf, r, d) + block;
    forall k | 0 <= k < d + |block| ensures lhs[k] == rhs[k] {
      if k < d {
        assert rhs[k] == buf[Wrap(r + k, n)];
      } else {
        assert Wrap(r + k, n) == w + (k - d);
      }
    }
  }

  /**
   * The ring-buffer state after a block is stored behind the window: the
   * window over the new buffer is the old stream's unread part followed
   * by the block, unless the block overflows the buffer.
   */
  lemma AppendKeepsWindow(buf: seq<Sample>, r: nat, d: nat, w: nat, c: nat, stream: seq<Sample>, block: seq<Sample>)
    requires r < |buf| && w < |buf| && d <= |buf| && w + |block| <= |buf|
    requires r + d == w || r + d == w + |buf|
    requires c + d == |stream| && Window(buf, r, d) == stream[c..]
    ensures d + |block| <= |buf| ==> Window(Overwrite(buf, w, block), r, d + |block|) == (stream + block)[c..]
  {
    if d + |block| <= |buf| {
      WindowAppend(buf, r, d, w, block);
      assert (stream + block)[c..] == stream[c..] + block;
    }
  }

  /**
   * The ring buffer's invariant: without an overrun, the depth samples
   * from the read index, wrapping at the end, are the stream's samples
   * not yet consumed, and they end at the write index; after an overrun
   * only the bounds and the stopped thread are kept.
   */
  predicate Ring(buf: seq<Sample>, r: nat, d: nat, w: nat, c: nat, stream: seq<Sample>, overrun: bool, running: bool)
  {
    (!overrun ==>
      r < |buf| && d <= |buf| && (r + d == w || r + d == w + |buf|) &&
      c + d == |stream| && Window(buf, r, d) == stream[c..]) &&
    (overrun ==> r <= |buf| && d + r <= 2 * |buf| && !running)
  }

  /** Storing a block at the write index keeps the ring, or is an overrun that stops the thread. */
  lemma RingAppend(buf: seq<Sample>, r: nat, d: nat, w: nat, c: nat, stream: seq<Sample>, block: seq<Sample>)
    requires Ring(buf, r, d, w, c, stream, false, true) && w < |buf| && w + |block| <= |buf|
    ensures var over := d + |block| > |buf|;
      Ring(Overwrite(buf, w, block), r, d + |block|, if w + |block| == |buf| then 0 else w + |block|,
           c, stream + block, over, !over)
  {
    AppendKeepsWindow(buf, r, d, w, c, stream, block);
  }

  /** Taking c samples off the front of the window leaves the window that starts c later. */
  lemma WindowDrop(buf: seq<Sample>, r: nat, d: nat, c: nat)
    requires r < |buf| && d <= |buf| && c <= d
    ensures Window(buf, r, d)[c..] == Window(buf, Wrap(r + c, |buf|), d - c)
  {
    var n := |buf|;
    forall k | 0 <= k < d - c ensures Window(buf, r, d)[c..][k] == Window(buf, Wrap(r + c, n), d - c)[k] {
      assert Wrap(Wrap(r + c, n) + k, n) == Wrap(r + c + k, n);
    }
  }

  /**
   * The count samples of buf from index from on, continuing at index 0
   * once the end is passed: what the two memcpy calls of a read copy.
   */
  function Wrapped(buf: seq<Sample>, from: nat, count: nat): (w: seq<Sample>)
    requires from <= |buf| && count <= 2 * |buf| - from
    ensures |w| == count
  {
    seq(count, k requires 0 <= k < count => buf[if from + k < |buf| then from + k else from + k - |buf|])
  }

  /** The wrapped samples are one contiguous piece, or the tail of buf followed by its head. */
  lemma WrappedPieces(buf: seq<Sample>, from: nat, count: nat)
    requires from <= |buf| && count <= 2 * |buf| - from
    ensures from + count <= |buf| ==> Wrapped(buf, from, count) == buf[from..from + count]
    ensures from + count > |buf| ==> Wrapped(buf, from, count) == buf[from..] + buf[..count - (|buf| - from)]
  {
    var n := |buf|;
    if from + count > n {
      var rhs := buf[from..] + buf[..count - (n - from)];
      forall k | 0 <= k < count ensures Wrapped(buf, from, count)[k] == rhs[k] {
        if k < n - from {
          assert rhs[k] == buf[from + k];
        } else {
          assert rhs[k] == buf[k - (n - from)];
        }
      }
    }
  }

  /** The first c samples of the window are the c wrapped samples from its start. */
  lemma WindowTake(buf: seq<Sample>, r: nat, d: nat, c: nat)
    requires r < |buf| && d <= |buf| && c <= d
    ensures Window(buf, r, d)[..c] == Wrapped(buf, r, c)
  {
  }

  /** Overwriting with x and then, right behind it, with y is overwriting with x + y. */
  lemma OverwriteConcat(buf: seq<Sample>, w: nat, x: seq<Sample>, y: seq<Sample>)
    requires w + |x| + |y| <= |buf|
    ensures Overwrite(Overwrite(buf, w, x), w + |x|, y) == Overwrite(buf, w, x + y)
  {
    var b1 := Overwrite(buf, w, x);
    assert b1[..w + |x|] == buf[..w] + x;
    assert b1[w + |x| + |y|..] == buf[w + |x| + |y|..];
  }

  /** What an overwrite leaves in front of, inside and behind the overwritten stretch. */
  lemma OverwriteSlices(buf: seq<Sample>, w: nat, block: seq<Sample>)
    requires w + |block| <= |buf|
    ensures Overwrite(buf, w, block)[..w] == buf[..w]
    ensures Overwrite(buf, w, block)[w..w + |block|] == block
    ensures Overwrite(buf, w, block)[w + |block|..] == buf[w + |block|..]
  {
  }

  // ---------------------------------------------------------------------
  // The status word

  /** The status word of a_in_scan_status and a_in_scan_read. */
  function StatusWord(hwOverrun: bool, bufferOverrun: bool, triggered: bool, running: bool): (w: nat)
    ensures w < 16
    ensures Bit(w, 0) == 1 <==> hwOverrun
    ensures Bit(w, 1) == 1 <==> bufferOverrun
    ensures Bit(w, 2) == 1 <==> triggered
    ensures Bit(w, 3) == 1 <==> running
  {
    var a, b, c, d := (if hwOverrun then 1 else 0), (if bufferOverrun then 1 else 0), (if triggered then 1 else 0), (if running then 1 else 0);
    FourBits(a, b, c, d);
    (if hwOverrun then STATUS_HW_OVERRUN else 0) + (if bufferOverrun then STATUS_BUFFER_OVERRUN else 0) +
    (if triggered then STATUS_TRIGGERED else 0) + (if running then STATUS_RUNNING else 0)
  }

  /** Bits 0 to 3 of a + 2b + 4c + 8d are a, b, c and d. */
  lemma FourBits(a: nat, b: nat, c: nat, d: nat)
    requires a <= 1 && b <= 1 && c <= 1 && d <= 1
    ensures var x := a + 2 * b + 4 * c + 8 * d;
      x < 16 && Bit(x, 0) == a && Bit(x, 1) == b && Bit(x, 2) == c && Bit(x, 3) == d
  {
    var x := a + 2 * b + 4 * c + 8 * d;
    assert Pow2(0) == 1 && Pow2(1) == 2 && Pow2(2) == 4 && Pow2(3) == 8;
    DivUnique(x, 1, x, 0);
    DivUnique(x, 2, b + 2 * c + 4 * d, a);
    DivUnique(x, 4, c + 2 * d, a + 2 * b);
    DivUnique(x, 8, d, a + 2 * b + 4 * c);
    DivUnique(b + 2 * c + 4 * d, 2, c + 2 * d, b);
    DivUnique(c + 2 * d, 2, d, c);
    DivUnique(d, 2, 0, d);
  }

  /** The read index and window after one chunk is taken off the front of the window. */
  lemma ChunkWindow(buf: seq<Sample>, r: nat, d: nat, w: nat, current: nat, r': nat)
    requires r < |buf| && w < |buf| && d <= |buf| && current <= d
    requires r + d == w || r + d == w + |buf|
    requires r' == (if |buf| - r < current then current - (|buf| - r)
                    else if r + current >= |buf| then 0 else r + current)
    ensures r' < |buf| && Window(buf, r, d)[current..] == Window(buf, r', d - current)
    ensures r' + (d - current) == w || r' + (d - current) == w + |buf|
    ensures Window(buf, r, d)[..current] == Wrapped(buf, r, current)
  {
    WindowDrop(buf, r, d, current);
    WindowTake(buf, r, d, current);
  }

  /**
   * Taking current samples off the front of the ring keeps the ring with
   * the read index moved past them; without an overrun they are the
   * wrapped samples from the old read index.
   */
  lemma RingTake(buf: seq<Sample>, r: nat, d: nat, w: nat, c: nat, stream: seq<Sample>, overrun: bool, running: bool,
                 current: nat, r': nat)
    requires Ring(buf, r, d, w, c, stream, overrun, running) && w < |buf| && current <= d
    requires r' == (if |buf| - r < current then current - (|buf| - r)
                    else if r + current >= |buf| then 0 else r + current)
    ensures Ring(buf, r', d - current, w, c + current, stream, overrun, running)
    ensures !overrun ==> Window(buf, r, d)[..current] == Wrapped(buf, r, current)
  {
    if !overrun {
      ChunkWindow(buf, r, d, w, current, r');
      assert stream[c..][current..] == stream[c + current..];
    }
  }

  // ---------------------------------------------------------------------
  // One scan

  /** A producer step's inputs: the status reply and the data reply. */
  datatype ProducerInput = ProducerInput(statusOk: bool, status: DeviceStatus, dataResult: ResultCode, codes: seq<int>)

  predicate WellFormed(p: ProducerInput)
  {
    |p.codes| >= p.status.available
  }

  /** mcc1xxScanThreadInfo: the buffer and the state shared by the scan thread and the reader. */
  class ScanSession {
    const family: Family
    const buffer: array<Sample>
    const channelCount: nat
    const readThreshold: nat
    /** MCC 128: the range of each queue entry; the others: 0 per channel. */
    const ranges: seq<nat>
    var writeIndex: nat
    var readIndex: nat
    var depth: nat
    var samplesTransferred: nat
    var channelIndex: nat
    var hwOverrun: bool
    var bufferOverrun: bool
    var triggered: bool
    var scanRunning: bool
    var threadRunning: bool
    /** Every sample the producer stored, in order, and how many the reader took. */
    ghost var stream: seq<Sample>
    ghost var consumed: nat

    ghost predicate Valid()
      reads this, buffer
    {
      buffer.Length > 0 && channelCount > 0 && |ranges| == channelCount &&
      writeIndex < buffer.Length && channelIndex < channelCount &&
      Ring(buffer[..], readIndex, depth, writeIndex, consumed, stream, bufferOverrun, threadRunning) &&
      (hwOverrun ==> !threadRunning)
    }

    /** The samples waiting in the buffer, oldest first. */
    ghost function Contents(): (s: seq<Sample>)
      requires Valid() && !bufferOverrun
      reads this, buffer
      ensures s == stream[consumed..] && |s| == depth
    {
      Window(buffer[..], readIndex, depth)
    }

    /**
     * The state a_in_scan_start leaves: an empty buffer of `size` samples,
     * the thread running and the scan marked running.
     */
    constructor (family: Family, size: nat, channelCount: nat, readThreshold: nat, ranges: seq<nat>)
      requires size > 0 && channelCount > 0 && |ranges| == channelCount
      ensures Valid() && fresh(buffer)
      ensures this.family == family && buffer.Length == size && this.channelCount == channelCount
      ensures this.readThreshold == readThreshold && this.ranges == ranges
      ensures depth == 0 && writeIndex == 0 && readIndex == 0 && channelIndex == 0 && samplesTransferred == 0
      ensures !hwOverrun && !bufferOverrun && !triggered && scanRunning && threadRunning
      ensures stream == [] && consumed == 0
    {
      this.family := family;
      this.channelCount := channelCount;
      this.readThreshold := readThreshold;
      this.ranges := ranges;
      buffer := new Sample[size](_ => Sample(0, 0));
      writeIndex, readIndex, depth, samplesTransferred, channelIndex := 0, 0, 0, 0, 0;
      hwOverrun, bufferOverrun, triggered := false, false, false;
      scanRunning, threadRunning := true, true;
      stream, consumed := [], 0;
    }

    /**
     * One iteration of _scan_thread.  A failed status transfer changes
     * nothing.  A hardware overrun ends the thread.  Before the trigger
     * nothing is read.  Otherwise ReadCount samples are read; on success
     * they are stored behind the newest sample (Accept).  The thread also
     * ends when the device finished its scan and no sample is left behind.
     */
    method ProducerStep(input: ProducerInput) returns (count: nat)
      requires Valid() && threadRunning && WellFormed(input)
      modifies this, buffer
      ensures Valid()
      ensures !input.statusOk ==> count == 0 && unchanged(this) && unchanged(buffer)
      ensures input.statusOk ==>
        hwOverrun == input.status.hwOverrun && triggered == input.status.triggered
      ensures input.statusOk && input.status.hwOverrun ==>
        count == 0 && !scanRunning && !threadRunning && depth == old(depth) &&
        stream == old(stream) && unchanged(buffer)
      ensures input.statusOk && !input.status.hwOverrun && !input.status.triggered ==>
        count == 0 && threadRunning && depth == old(depth) && stream == old(stream) && unchanged(buffer)
      ensures input.statusOk && !input.status.hwOverrun && input.status.triggered ==>
        var n := ReadCount(family, input.status, readThreshold, buffer.Length, old(writeIndex));
        count == (if n > 0 && input.dataResult == Success then n else 0) &&
        depth == old(depth) + count &&
        samplesTransferred == old(samplesTransferred) + count &&
        writeIndex == (if old(writeIndex) + count == buffer.Length then 0 else old(writeIndex) + count) &&
        stream == old(stream) + Block(family, input.codes[..count], old(channelIndex), channelCount, ranges) &&
        channelIndex == ChannelAfter(old(channelIndex), count, channelCount) &&
        bufferOverrun == (old(bufferOverrun) || depth > buffer.Length) &&
        (threadRunning <==> !(depth > buffer.Length || ScanFinished(family, input.status, n))) &&
        (!threadRunning ==> !scanRunning) && (threadRunning ==> scanRunning == old(scanRunning))
      ensures consumed == old(consumed) && readIndex == old(readIndex)
      ensures old(stream) <= stream && (old(bufferOverrun) ==> bufferOverrun)
    {
      count := 0;
      if !input.statusOk {
        return;
      }
      var st := input.status;
      hwOverrun := st.hwOverrun;
      triggered := st.triggered;
      if st.hwOverrun {
        scanRunning := false;
        threadRunning := false;
        return;
      }
      if !st.triggered {
        return;
      }
      count := ProducerRead(input);
    }

    /** The triggered part of one _scan_thread iteration: read, store, and see whether the thread ends. */
    method ProducerRead(input: ProducerInput) returns (count: nat)
      requires Valid() && threadRunning && WellFormed(input) && input.statusOk && input.status.triggered
      modifies this, buffer
      ensures Valid()
      ensures var n := ReadCount(family, input.status, readThreshold, buffer.Length, old(writeIndex));
        count == (if n > 0 && input.dataResult == Success then n else 0) &&
        depth == old(depth) + count &&
        samplesTransferred == old(samplesTransferred) + count &&
        writeIndex == (if old(writeIndex) + count == buffer.Length then 0 else old(writeIndex) + count) &&
        stream == old(stream) + Block(family, input.codes[..count], old(channelIndex), channelCount, ranges) &&
        channelIndex == ChannelAfter(old(channelIndex), count, channelCount) &&
        bufferOverrun == (old(bufferOverrun) || depth > buffer.Length) &&
        (threadRunning <==> !(depth > buffer.Length || ScanFinished(family, input.status, n))) &&
        (!threadRunning ==> !scanRunning) && (threadRunning ==> scanRunning == old(scanRunning))
      ensures consumed == old(consumed) && readIndex == old(readIndex)
      ensures hwOverrun == old(hwOverrun) && triggered == old(triggered)
    {
      count := 0;
      var st := input.status;
      var n := ReadCount(family, st, readThreshold, buffer.Length, writeIndex);
      if n > 0 && input.dataResult == Success {
        var block := Block(family, input.codes[..n], channelIndex, channelCount, ranges);
        Accept(block);
        count := n;
      } else {
        assert Block(family, input.codes[..0], channelIndex, channelCount, ranges) == [];
      }
      if threadRunning && ScanFinished(family, st, n) {
        scanRunning := false;
        threadRunning := false;
      }
    }

    /**
     * Stores a block read from the device behind the newest sample: the
     * write index wraps to 0 at the end of the buffer, the depth grows by
     * exactly the block's length, and a depth above the buffer size is a
     * buffer overrun that ends the thread.
     */
    method Accept(block: seq<Sample>)
      requires Valid() && threadRunning && 0 < |block| && writeIndex + |block| <= buffer.Length
      requires forall k :: 0 <= k < |block| ==> block[k].coefficient == (if family == Mcc128 then ranges[channelIndex] else ChannelAfter(channelIndex, k, channelCount))
      modifies this, buffer
      ensures Valid()
      ensures depth == old(depth) + |block| && samplesTransferred == old(samplesTransferred) + |block|
      ensures writeIndex == (if old(writeIndex) + |block| == buffer.Length then 0 else old(writeIndex) + |block|)
      ensures stream == old(stream) + block && consumed == old(consumed) && readIndex == old(readIndex)
      ensures channelIndex == ChannelAfter(old(channelIndex), |block|, channelCount)
      ensures bufferOverrun == (depth > buffer.Length) && (threadRunning <==> !bufferOverrun)
      ensures scanRunning == (old(scanRunning) && !bufferOverrun)
      ensures hwOverrun == old(hwOverrun) && triggered == old(triggered)
    {
      ghost var before := buffer[..];
      StoreBlock(block, |block|);
      Grow(block, before);
    }

    /** The bookkeeping after a block was stored over `before`: the write index, the depth and the overrun check. */
    method Grow(block: seq<Sample>, ghost before: seq<Sample>)
      requires buffer.Length > 0 && channelCount > 0 && |ranges| == channelCount
      requires writeIndex < buffer.Length && channelIndex < channelCount && threadRunning && !hwOverrun
      requires Ring(before, readIndex, depth, writeIndex, consumed, stream, false, true)
      requires writeIndex + |block| <= |before| && buffer[..] == Overwrite(before, writeIndex, block)
      modifies this`writeIndex, this`depth, this`stream, this`samplesTransferred, this`bufferOverrun, this`scanRunning, this`threadRunning
      ensures Valid()
      ensures depth == old(depth) + |block| && samplesTransferred == old(samplesTransferred) + |block|
      ensures writeIndex == (if old(writeIndex) + |block| == buffer.Length then 0 else old(writeIndex) + |block|)
      ensures stream == old(stream) + block
      ensures bufferOverrun == (depth > buffer.Length) && (threadRunning <==> !bufferOverrun)
      ensures scanRunning == (old(scanRunning) && !bufferOverrun)
    {
      RingAppend(before, readIndex, depth, writeIndex, consumed, stream, block);
      var overrun := depth + |block| > buffer.Length;
      writeIndex, depth, stream := if writeIndex + |block| == buffer.Length then 0 else writeIndex + |block|, depth + |block|, stream + block;
      samplesTransferred := samplesTransferred + |block|;
      bufferOverrun, threadRunning := overrun, !overrun;
      if overrun {
        scanRunning := false;
      }
    }

    /** _a_in_read_scan_data: stores the block at the write index and advances the channel index. */
    method StoreBlock(block: seq<Sample>, n: nat)
      requires Valid() && n == |block| && writeIndex + n <= buffer.Length
      requires forall k :: 0 <= k < n ==> block[k].coefficient == (if family == Mcc128 then ranges[channelIndex] else ChannelAfter(channelIndex, k, channelCount))
      modifies this`channelIndex, buffer
      ensures channelIndex == ChannelAfter(old(channelIndex), n, channelCount)
      ensures buffer[..] == Overwrite(old(buffer[..]), writeIndex, block)
    {
      var i := 0;
      ghost var c0 := channelIndex;
      ghost var b0 := buffer[..];
      while i < n
        invariant 0 <= i <= n
        invariant channelIndex == ChannelAfter(c0, i, channelCount)
        invariant buffer[..] == Overwrite(b0, writeIndex, block[..i])
      {
        OverwriteStep(b0, writeIndex, block, i);
        buffer[writeIndex + i] := block[i];
        channelIndex := NextChannel(channelIndex, channelCount);
        i := i + 1;
      }
      assert block[..n] == block;
    }

    /**
     * The copy step of one a_in_scan_read pass: when at least one whole
     * scan is buffered, takes the largest whole number of scans up to
     * toRead, oldest first, in one piece or in two at the end of the
     * buffer, and drops them from the buffer.
     */
    method CopyChunk(out: array<Sample>, at: nat, toRead: nat) returns (current: nat)
      requires Valid() && out != buffer && at + toRead <= out.Length
      modifies this`readIndex, this`depth, this`consumed, out
      ensures Valid()
      ensures old(depth) >= channelCount ==> current == Normalize(Min(old(depth), toRead), channelCount)
      ensures old(depth) < channelCount ==> current == 0
      ensures current % channelCount == 0
      ensures current <= toRead && depth == old(depth) - current && consumed == old(consumed) + current
      ensures out[..at] == old(out[..at]) && out[at + current..] == old(out[at + current..])
      ensures !bufferOverrun ==> out[at..at + current] == old(Contents())[..current]
    {
      if depth < channelCount {
        return 0;
      }
      current := Normalize(Min(depth, toRead), channelCount);
      assert current <= depth && current <= toRead && current % channelCount == 0;
      ghost var buf, r, o := buffer[..], readIndex, out[..];
      CopyWrapped(buffer, readIndex, out, at, current);
      assert buffer[..] == buf;
      Take(current);
      OverwriteSlices(o, at, Wrapped(buf, r, current));
    }

    /** Drops the current oldest samples from the buffer: the read index moves past them, wrapping at the end. */
    method Take(current: nat)
      requires Valid() && current <= depth
      modifies this`readIndex, this`depth, this`consumed
      ensures Valid() && depth == old(depth) - current && consumed == old(consumed) + current
      ensures !bufferOverrun ==> old(Contents())[..current] == Wrapped(buffer[..], old(readIndex), current)
    {
      ghost var r, d, c := readIndex, depth, consumed;
      var maxRead := buffer.Length - readIndex;
      if maxRead < current {
        readIndex := current - maxRead;
      } else {
        readIndex := if readIndex + current >= buffer.Length then 0 else readIndex + current;
      }
      depth := depth - current;
      consumed := consumed + current;
      RingTake(buffer[..], r, d, writeIndex, c, stream, bufferOverrun, threadRunning, current, readIndex);
    }

    /**
     * One pass of the a_in_scan_read loop up to its copy: the producer
     * may store a block first, then a chunk is copied behind the samples
     * read so far.
     */
    method ReadPass(out: array<Sample>, samplesRead: nat, toRead: nat, producer: Option<ProducerInput>, ghost c0: nat)
      returns (current: nat)
      requires Valid() && out != buffer && samplesRead + toRead <= out.Length
      requires producer.Some? ==> WellFormed(producer.value)
      requires consumed == c0 + samplesRead && (!bufferOverrun ==> out[..samplesRead] == stream[c0..consumed])
      modifies this, buffer, out
      ensures Valid() && current <= toRead && current % channelCount == 0
      ensures consumed == c0 + samplesRead + current
      ensures old(stream) <= stream && (old(bufferOverrun) ==> bufferOverrun) && (old(hwOverrun) ==> hwOverrun)
      ensures !bufferOverrun ==> out[..samplesRead + current] == stream[c0..consumed]
    {
      ghost var prefix := out[..samplesRead];
      MaybeProduce(producer);
      assert out[..samplesRead] == prefix;
      current := CopyChunk(out, samplesRead, toRead);
      if !bufferOverrun {
        ghost var got := out[..samplesRead + current];
        assert got[..samplesRead] == out[..samplesRead] && got[samplesRead..] == out[samplesRead..samplesRead + current];
        ChunkAppend(got, prefix, stream, c0, samplesRead, current);
      }
    }

    /** The producer step that may run before a pass, as the reader sees it: the stream only grows. */
    method MaybeProduce(producer: Option<ProducerInput>)
      requires Valid() && (producer.Some? ==> WellFormed(producer.value))
      modifies this, buffer
      ensures Valid() && consumed == old(consumed)
      ensures old(stream) <= stream && (old(bufferOverrun) ==> bufferOverrun) && (old(hwOverrun) ==> hwOverrun)
    {
      if producer.Some? && threadRunning {
        var _ := ProducerStep(producer.value);
      }
    }

    /** The state the a_in_scan_read loop keeps between passes. */
    ghost predicate Reading(out: array<Sample>, c0: nat, requested: nat, samplesRead: nat, toRead: nat, scans: nat,
                            going: bool, first: bool, statHw: bool, statBo: bool, timedOut: bool,
                            noTimeout: bool, immediate: bool, timeout: real, s0: seq<Sample>, o0: bool)
      reads this, buffer, out
    {
      Valid() && out != buffer && requested <= out.Length &&
      samplesRead + toRead == requested && samplesRead == scans * channelCount &&
      consumed == c0 + samplesRead && s0 <= stream &&
      (!bufferOverrun ==> out[..samplesRead] == stream[c0..consumed]) &&
      (going && !first ==> !statBo && !statHw && !bufferOverrun) &&
      (statBo ==> bufferOverrun) && (!first && bufferOverrun ==> statBo) &&
      (statHw ==> hwOverrun) && (!first && hwOverrun ==> statHw) &&
      (!going ==> toRead == 0 || statHw || statBo || (!threadRunning && depth == 0) || timedOut) &&
      noTimeout == (timeout < 0.0) && immediate == (!noTimeout && timeout * 1000000.0 < 1.0) &&
      (timedOut ==> !noTimeout && (immediate || timeout > 0.0)) &&
      (o0 ==> bufferOverrun)
    }

    /** One pass of the a_in_scan_read loop with its timeout and overrun checks. */
    method ReadStep(out: array<Sample>, ghost c0: nat, ghost requested: nat, samplesRead: nat, toRead: nat, ghost scans: nat,
                    first: bool, statHw: bool, statBo: bool, timedOut: bool,
                    noTimeout: bool, immediate: bool, timeout: real, ghost s0: seq<Sample>, ghost o0: bool, pass: Pass)
      returns (samplesRead': nat, toRead': nat, ghost scans': nat, timedOut': bool, statHw': bool, statBo': bool, going': bool)
      requires Reading(out, c0, requested, samplesRead, toRead, scans, true, first, statHw, statBo, timedOut,
                       noTimeout, immediate, timeout, s0, o0)
      requires pass.producer.Some? ==> WellFormed(pass.producer.value)
      modifies this, buffer, out
      ensures Reading(out, c0, requested, samplesRead', toRead', scans', going', false, statHw', statBo', timedOut',
                      noTimeout, immediate, timeout, s0, o0)
      ensures timedOut' ==> timedOut || immediate || pass.timedOut
    {
      var current := ReadPass(out, samplesRead, toRead, pass.producer, c0);
      ScansAdd(scans, current, channelCount);
      scans' := scans + current / channelCount;
      samplesRead' := samplesRead + current;
      toRead' := toRead - current;
      timedOut' := timedOut;
      if !noTimeout {
        timedOut' := immediate || pass.timedOut;
      }
      statHw', statBo' := statHw, statBo;
      if hwOverrun {
        statHw' := true;
      }
      if bufferOverrun {
        statBo' := true;
      }
      going' := toRead' > 0 && !statHw' && !statBo' && (threadRunning || depth > 0) && !timedOut';
    }

    /**
     * a_in_scan_read once the arguments were accepted and a scan exists.
     * The request is samples_per_channel whole scans, or with -1 whatever
     * is buffered (rounded down to whole scans except on the MCC 118),
     * capped to the whole scans that fit the caller's buffer.  Each pass
     * of the loop may be preceded by one producer step, copies a chunk,
     * then checks the timeout and the overrun flags; the loop ends when
     * the request is met, on an overrun, when the thread has ended and
     * the buffer is empty, or on timeout.  TIMEOUT is returned only for a
     * positive timeout that expired with samples still owed.  Without an
     * overrun, the samples returned are exactly the next ones of the
     * stream the producer stored, in order.  `exhausted` reports that the
     * pass script ran out before the loop would have ended.
     */
    method Read(samplesPerChannel: int, timeout: real, out: array?<Sample>, bufferSizeSamples: nat, script: seq<Pass>)
      returns (result: ResultCode, status: nat, samplesReadPerChannel: nat, exhausted: bool)
      requires Valid() && WellFormedScript(script)
      requires -0x8000_0000 <= samplesPerChannel < 0x8000_0000 && bufferSizeSamples < 0x1_0000_0000
      requires out != null ==> out != buffer && out.Length >= bufferSizeSamples
      requires out == null ==> bufferSizeSamples == 0 || samplesPerChannel == 0
      modifies this, buffer, out
      ensures Valid()
      ensures result == Success || result == Timeout
      ensures result == Timeout ==>
        timeout > 0.0 &&
        samplesReadPerChannel * channelCount < Requested(samplesPerChannel, old(depth), channelCount, bufferSizeSamples) &&
        (timeout * 1000000.0 < 1.0 || exists k :: 0 <= k < |script| && script[k].timedOut)
      ensures (!exhausted && timeout > 0.0 &&
               samplesReadPerChannel * channelCount < Requested(samplesPerChannel, old(depth), channelCount, bufferSizeSamples) &&
               !hwOverrun && !bufferOverrun && (threadRunning || depth > 0))
        ==> result == Timeout
      ensures samplesReadPerChannel * channelCount <=
        Requested(samplesPerChannel, old(depth), channelCount, bufferSizeSamples)
      ensures consumed == old(consumed) + samplesReadPerChannel * channelCount
      ensures old(stream) <= stream
      ensures !bufferOverrun && out != null ==>
        samplesReadPerChannel * channelCount <= out.Length &&
        out[..samplesReadPerChannel * channelCount] == stream[old(consumed)..consumed]
      ensures !exhausted ==> (Bit(status, 0) == 1 <==> hwOverrun)
      ensures !exhausted ==> (Bit(status, 1) == 1 <==> bufferOverrun)
      ensures Bit(status, 2) == 1 <==> triggered
      ensures Bit(status, 3) == 1 <==> scanRunning
      ensures (!exhausted && result == Success &&
               samplesReadPerChannel * channelCount < Requested(samplesPerChannel, old(depth), channelCount, bufferSizeSamples))
        ==> Bit(status, 0) == 1 || bufferOverrun || (!threadRunning && depth == 0) || timeout == 0.0
    {
      var toRead: nat := Requested(samplesPerChannel, depth, channelCount, bufferSizeSamples);
      ghost var requested := toRead;
      ghost var c0 := consumed;
      var noTimeout := timeout < 0.0;
      var immediate := !noTimeout && timeout * 1000000.0 < 1.0;
      var samplesRead: nat := 0;
      ghost var scans: nat := 0;
      var timedOut := false;
      var statHw, statBo := false, false;
      exhausted := false;
      if toRead > 0 {
        var outArray: array<Sample> := out;
        var k := 0;
        var going := true;
        while going && k < |script|
          invariant k <= |script| && (k == 0 ==> going)
          invariant Reading(outArray, c0, requested, samplesRead, toRead, scans, going, k == 0, statHw, statBo, timedOut,
                            noTimeout, immediate, timeout, old(stream), old(bufferOverrun))
          invariant timedOut ==> immediate || exists j :: 0 <= j < k && script[j].timedOut
          decreases |script| - k
        {
          samplesRead, toRead, scans, timedOut, statHw, statBo, going :=
            ReadStep(outArray, c0, requested, samplesRead, toRead, scans, k == 0, statHw, statBo, timedOut,
                     noTimeout, immediate, timeout, old(stream), old(bufferOverrun), script[k]);
          k := k + 1;
        }
        exhausted := going;
        MulDivCancel(scans, channelCount);
        samplesReadPerChannel := samplesRead / channelCount;
      } else {
        statHw, statBo := hwOverrun, bufferOverrun;
        samplesReadPerChannel := 0;
      }
      status := StatusWord(statHw, statBo, triggered, scanRunning);
      result := if !noTimeout && timeout > 0.0 && timedOut && toRead > 0 then Timeout else Success;
    }
  }

  /**
   * The scan part of one entry of the device table: scan_info, present
   * from a successful a_in_scan_start until a_in_scan_cleanup.  Each
   * operation takes the outcome of _check_addr for its address.
   */
  class ScanDevice {
    var scan: ScanSession?
    /** The trigger mode the next scan start uses (TRIG_RISING_EDGE .. TRIG_ACTIVE_LOW). */
    var triggerMode: nat

    ghost predicate Valid()
      reads this, scan, if scan == null then {} else {scan.buffer}
    {
      scan != null ==> scan.Valid()
    }

    constructor ()
      ensures Valid() && scan == null && triggerMode == 0
    {
      scan := null;
      triggerMode := 0;
    }

    /** trigger_mode: BAD_PARAMETER for a bad address or a mode above 3, BUSY while a scan exists. */
    method SetTriggerMode(addressOk: bool, mode: int) returns (result: ResultCode)
      requires Valid()
      modifies this`triggerMode
      ensures Valid()
      ensures result == (if !addressOk || !(0 <= mode <= TRIG_ACTIVE_LOW) then BadParameter
                         else if scan != null then Busy else Success)
      ensures result == Success ==> triggerMode == mode
      ensures result != Success ==> triggerMode == old(triggerMode)
    {
      if !addressOk || !(0 <= mode <= TRIG_ACTIVE_LOW) {
        return BadParameter;
      }
      if scan != null {
        return Busy;
      }
      triggerMode := mode;
      return Success;
    }

    /** a_in_scan_status: the status word and the whole scans buffered. */
    method Status(addressOk: bool) returns (result: ResultCode, status: nat, samplesPerChannel: nat)
      requires Valid()
      ensures !addressOk ==> result == BadParameter
      ensures addressOk && scan == null ==> result == ResourceUnavail && status == 0 && samplesPerChannel == 0
      ensures addressOk && scan != null ==>
        result == Success &&
        (Bit(status, 0) == 1 <==> scan.hwOverrun) && (Bit(status, 1) == 1 <==> scan.bufferOverrun) &&
        (Bit(status, 2) == 1 <==> scan.triggered) && (Bit(status, 3) == 1 <==> scan.scanRunning) &&
        samplesPerChannel * scan.channelCount <= scan.depth < (samplesPerChannel + 1) * scan.channelCount
    {
      if !addressOk {
        return BadParameter, 0, 0;
      }
      if scan == null {
        return ResourceUnavail, 0, 0;
      }
      status := StatusWord(scan.hwOverrun, scan.bufferOverrun, scan.triggered, scan.scanRunning);
      samplesPerChannel := scan.depth / scan.channelCount;
      result := Success;
    }

    /** a_in_scan_buffer_size. */
    method BufferSize(addressOk: bool) returns (result: ResultCode, size: nat)
      requires Valid()
      ensures !addressOk ==> result == BadParameter
      ensures addressOk && scan == null ==> result == ResourceUnavail
      ensures addressOk && scan != null ==> result == Success && size == scan.buffer.Length && size > 0
    {
      if !addressOk {
        return BadParameter, 0;
      }
      if scan == null {
        return ResourceUnavail, 0;
      }
      return Success, scan.buffer.Length;
    }

    /** a_in_scan_channel_count: 0 when no scan exists. */
    method ChannelCount(addressOk: bool) returns (count: nat)
      requires Valid()
      ensures addressOk && scan != null ==> count == scan.channelCount && count > 0
      ensures !addressOk || scan == null ==> count == 0
    {
      if !addressOk || scan == null {
        return 0;
      }
      return scan.channelCount;
    }

    /** The end of a successful a_in_scan_start: the new scan is installed. */
    method Install(s: ScanSession)
      requires scan == null && s.Valid()
      modifies this`scan
      ensures Valid() && scan == s
    {
      scan := s;
    }

    /**
     * a_in_scan_cleanup: the thread is stopped and joined and the scan is
     * freed.  Always SUCCESS for a valid address, whether or not a scan
     * existed, so a second call changes nothing.
     */
    method Cleanup(addressOk: bool) returns (result: ResultCode)
      requires Valid()
      modifies this`scan
      ensures Valid()
      ensures result == (if addressOk then Success else BadParameter)
      ensures addressOk ==> scan == null
      ensures !addressOk ==> scan == old(scan)
    {
      if !addressOk {
        return BadParameter;
      }
      scan := null;
      return Success;
    }

    /**
     * a_in_scan_read: BAD_PARAMETER for a bad address, no status
     * out-parameter, or a positive request without a buffer; RESOURCE_UNAVAIL
     * when no scan exists; otherwise ScanSession.Read.
     */
    method ReadScan(addressOk: bool, statusOk: bool, samplesPerChannel: int, timeout: real,
                    out: array?<Sample>, bufferSizeSamples: nat, script: seq<Pass>)
      returns (result: ResultCode, status: nat, samplesReadPerChannel: nat, exhausted: bool)
      requires Valid() && WellFormedScript(script)
      requires -0x8000_0000 <= samplesPerChannel < 0x8000_0000 && bufferSizeSamples < 0x1_0000_0000
      requires scan != null && out != null ==> out != scan.buffer && out.Length >= bufferSizeSamples
      requires out == null && samplesPerChannel < 0 ==> bufferSizeSamples == 0
      modifies if scan == null then {} else {scan, scan.buffer}, out
      ensures Valid() && scan == old(scan)
      ensures !addressOk || !statusOk || (samplesPerChannel > 0 && (out == null || bufferSizeSamples == 0)) ==>
        result == BadParameter && samplesReadPerChannel == 0
      ensures addressOk && statusOk && !(samplesPerChannel > 0 && (out == null || bufferSizeSamples == 0)) ==>
        if scan == null then result == ResourceUnavail && status == 0 && samplesReadPerChannel == 0
        else ((result == Success || result == Timeout) &&
          (result == Timeout ==> timeout > 0.0) &&
          samplesReadPerChannel * scan.channelCount <=
            Requested(samplesPerChannel, old(scan.depth), scan.channelCount, bufferSizeSamples) &&
          scan.consumed == old(scan.consumed) + samplesReadPerChannel * scan.channelCount &&
          (!scan.bufferOverrun && out != null ==>
            samplesReadPerChannel * scan.channelCount <= out.Length &&
            out[..samplesReadPerChannel * scan.channelCount] == scan.stream[old(scan.consumed)..scan.consumed]))
      ensures addressOk && statusOk && !(samplesPerChannel > 0 && (out == null || bufferSizeSamples == 0)) &&
              scan != null ==>
        var owed := Requested(samplesPerChannel, old(scan.depth), scan.channelCount, bufferSizeSamples);
        old(scan.stream) <= scan.stream &&
        (result == Timeout ==>
          samplesReadPerChannel * scan.channelCount < owed &&
          (timeout * 1000000.0 < 1.0 || exists k :: 0 <= k < |script| && script[k].timedOut)) &&
        ((!exhausted && timeout > 0.0 && samplesReadPerChannel * scan.channelCount < owed &&
          !scan.hwOverrun && !scan.bufferOverrun && (scan.threadRunning || scan.depth > 0)) ==> result == Timeout) &&
        (!exhausted ==> (Bit(status, 0) == 1 <==> scan.hwOverrun) && (Bit(status, 1) == 1 <==> scan.bufferOverrun)) &&
        (Bit(status, 2) == 1 <==> scan.triggered) && (Bit(status, 3) == 1 <==> scan.scanRunning) &&
        (!exhausted && result == Success && samplesReadPerChannel * scan.channelCount < owed ==>
          Bit(status, 0) == 1 || scan.bufferOverrun || (!scan.threadRunning && scan.depth == 0) || timeout == 0.0)
    {
      if !addressOk || !statusOk || (samplesPerChannel > 0 && (out == null || bufferSizeSamples == 0)) {
        return BadParameter, 0, 0, false;
      }
      if scan == null {
        return ResourceUnavail, 0, 0, false;
      }
      result, status, samplesReadPerChannel, exhausted :=
        scan.Read(samplesPerChannel, timeout, out, bufferSizeSamples, script);
    }
  }

  // ---------------------------------------------------------------------
  // Read-all on the MCC 118

  /**
   * samples_to_read of mcc118_a_in_scan_read as written: read-all takes
   * the raw buffer depth, which need not be a whole number of scans.
   */
  function Mcc118RequestAsWritten(samplesPerChannel: int, depth: nat, channelCount: nat, bufferSizeSamples: nat): (n: nat)
    requires channelCount > 0
    ensures samplesPerChannel == -1 && depth <= bufferSizeSamples ==> n == depth
    ensures samplesPerChannel != -1 ==> n == Requested(samplesPerChannel, depth, channelCount, bufferSizeSamples)
  {
    var raw := if samplesPerChannel == -1 then depth else ToU32(samplesPerChannel * channelCount);
    if bufferSizeSamples < raw then Normalize(bufferSizeSamples, channelCount) else raw
  }

  /**
   * With three channels and 512 samples buffered (one block of
   * MAX_SAMPLES_READ), read-all asks for 512 samples; the first pass
   * copies 510 and no later pass can copy any of the 2 still owed, so
   * without a timeout the loop only ends on an overrun.
   */
  lemma Mcc118ReadAllStalls(laterDepth: nat)
    ensures Mcc118RequestAsWritten(-1, 512, 3, 10000) == 512
    ensures Normalize(Min(512, 512), 3) == 510
    ensures Normalize(Min(laterDepth, 512 - 510), 3) == 0
  {
  }

  /**
   * With the request rounded down to whole scans, as the MCC 128 and
   * MCC 172 do, read-all is met by the first pass that copies anything.
   */
  lemma ReadAllOnePass(depth: nat, channelCount: nat, bufferSizeSamples: nat)
    requires channelCount > 0
    ensures var n := Requested(-1, depth, channelCount, bufferSizeSamples);
      n > 0 ==> depth >= channelCount && Normalize(Min(depth, n), channelCount) == n
  {
    var n := Requested(-1, depth, channelCount, bufferSizeSamples);
    if n > 0 {
      assert n == (n / channelCount) * channelCount;
      assert n / channelCount >= 1;
      MulAtLeast(n / channelCount, channelCount);
      DivUnique(n, channelCount, n / channelCount, 0);
    }
  }

  /** One pass of the read loop: an optional producer step before it, and whether the timeout has expired after it. */
  datatype Pass = Pass(producer: Option<ProducerInput>, timedOut: bool)

  predicate WellFormedScript(script: seq<Pass>)
  {
    forall i :: 0 <= i < |script| ==> script[i].producer.Some? ==> WellFormed(script[i].producer.value)
  }

  /**
   * samples_to_read: the request in samples, capped to the whole scans
   * that fit the caller's buffer.  samples_per_channel * channel_count is
   * computed in 32 bits.  Read-all takes the buffered depth rounded down
   * to whole scans (the MCC 118 source does not round; see
   * Mcc118ReadAllStalls).
   */
  function Requested(samplesPerChannel: int, depth: nat, channelCount: nat, bufferSizeSamples: nat): (n: nat)
    requires channelCount > 0
    ensures n <= bufferSizeSamples
    ensures RawRequest(samplesPerChannel, depth, channelCount) <= bufferSizeSamples ==>
      n == RawRequest(samplesPerChannel, depth, channelCount)
    ensures RawRequest(samplesPerChannel, depth, channelCount) > bufferSizeSamples ==>
      n % channelCount == 0 && bufferSizeSamples - n < channelCount
    ensures samplesPerChannel == -1 ==> n % channelCount == 0 && n <= depth
  {
    var raw := RawRequest(samplesPerChannel, depth, channelCount);
    if bufferSizeSamples < raw then Normalize(bufferSizeSamples, channelCount) else raw
  }

  /** The request before the cap: read-all, or samples_per_channel scans in 32-bit arithmetic. */
  function RawRequest(samplesPerChannel: int, depth: nat, channelCount: nat): (n: nat)
    requires channelCount > 0
    ensures samplesPerChannel == -1 ==> n <= depth && depth - n < channelCount && n % channelCount == 0
    ensures 0 <= samplesPerChannel * channelCount < 0x1_0000_0000 ==> n == samplesPerChannel * channelCount
  {
    if samplesPerChannel == -1 then Normalize(depth, channelCount)
    else ToU32(samplesPerChannel * channelCount)
  }

  /** The samples read so far followed by the next chunk are the next stretch of the stream. */
  lemma ChunkAppend(got: seq<Sample>, prefix: seq<Sample>, stream: seq<Sample>, c0: nat, s0: nat, current: nat)
    requires |got| == s0 + current && c0 + s0 + current <= |stream|
    requires got[..s0] == prefix && prefix == stream[c0..c0 + s0]
    requires got[s0..] == stream[c0 + s0..][..current]
    ensures got == stream[c0..c0 + s0 + current]
  {
    assert got == got[..s0] + got[s0..];
  }

  /** Adding a chunk of whole scans to a count of whole scans. */
  lemma ScansAdd(scans: nat, current: nat, c: nat)
    requires c > 0 && current % c == 0
    ensures scans * c + current == (scans + current / c) * c
  {
    assert current == (current / c) * c;
    assert (scans + current / c) * c == scans * c + (current / c) * c;
  }

  /**
   * The memcpy calls of one read pass: count samples of the ring buffer
   * src starting at from, in two pieces when they run past its end.
   */
  method CopyWrapped(src: array<Sample>, from: nat, dst: array<Sample>, at: nat, count: nat)
    requires src != dst && from <= src.Length && at + count <= dst.Length && count <= 2 * src.Length - from
    modifies dst
    ensures dst[..] == Overwrite(old(dst[..]), at, Wrapped(src[..], from, count))
  {
    var maxRead := src.Length - from;
    ghost var s0, d0 := src[..], dst[..];
    WrappedPieces(s0, from, count);
    if maxRead < count {
      CopyRange(src, from, dst, at, maxRead);
      assert src[..] == s0;
      assert s0[from..from + maxRead] == s0[from..];
      CopyRange(src, 0, dst, at + maxRead, count - maxRead);
      assert src[..] == s0;
      OverwriteConcat(d0, at, s0[from..], s0[..count - maxRead]);
    } else {
      CopyRange(src, from, dst, at, count);
      assert src[..] == s0;
    }
  }

  /** memcpy: copies count elements of src, starting at from, to dst at position at. */
  method CopyRange(src: array<Sample>, from: nat, dst: array<Sample>, at: nat, count: nat)
    requires src != dst && from + count <= src.Length && at + count <= dst.Length
    modifies dst
    ensures dst[..] == Overwrite(old(dst[..]), at, src[from..from + count])
  {
    var i := 0;
    ghost var d0 := dst[..];
    ghost var piece := src[from..from + count];
    while i < count
      invariant 0 <= i <= count
      invariant dst[..] == Overwrite(d0, at, piece[..i])
    {
      OverwriteStep(d0, at, piece, i);
      dst[at + i] := src[from + i];
      i := i + 1;
    }
    assert piece[..count] == piece;
  }
}
