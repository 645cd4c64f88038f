// The acquisition side of the GTK data loggers for the MCC 118
// (examples/c/mcc118/data_logger/logger/logger.c) and the MCC 172
// (examples/c/mcc172/data_logger/logger/logger.c).  Both read interleaved
// scans in a worker thread, keep the newest window of them in a display
// buffer, and copy one channel at a time out of that buffer into the X/Y
// arrays of its graph.  The two files have the same code for all of this;
// the window is g_num_samples scans on the MCC 118 and g_fft_size scans on
// the MCC 172.

module DataLogger {
  import opened DaqHats
  import Mcc118

  function Min(a: int, b: int): int { if a < b then a else b }

  function Max(a: int, b: int): int { if a < b then b else a }

  // ---------------------------------------------------------------------
  // Arithmetic on scan counts times channel counts

  lemma MulAdd(a: int, b: int, c: int)
    ensures (a + b) * c == a * c + b * c
  {
  }

  lemma MulSub(a: int, b: int, c: int)
    ensures (a - b) * c == a * c - b * c
  {
  }

  lemma MulLess(a: int, b: int, c: int)
    requires a < b && c > 0
    ensures a * c < b * c
  {
    MulAdd(a, b - a, c);
    MulAtLeast(b - a, c);
  }

  lemma MulNonNeg(a: nat, b: nat)
    ensures a * b >= 0
  {
  }

  // ---------------------------------------------------------------------
  // create_selected_channel_mask

  /** The first i check boxes have been looked at: exactly their checked ones are set in the mask. */
  ghost predicate Marked(mask: nat, checked: seq<bool>, i: nat)
  {
    i <= |checked| && forall j: nat :: Bit(mask, j) == (if j < i && checked[j] then 1 else 0)
  }

  lemma MarkChecked(mask: nat, checked: seq<bool>, i: nat)
    requires Marked(mask, checked, i) && i < |checked| && checked[i]
    ensures Marked(Or(mask, Pow2(i)), checked, i + 1)
  {
    forall j: nat
      ensures Bit(Or(mask, Pow2(i)), j) == (if j < i + 1 && checked[j] then 1 else 0)
    {
      OrBits(mask, Pow2(i), j);
      ShiftedOneBits(i, j);
    }
  }

  /** A value whose bits from n up are all clear is below 2^n. */
  lemma {:induction false} BitsBound(x: nat, n: nat)
    requires forall j: nat :: n <= j ==> Bit(x, j) == 0
    ensures x < Pow2(n)
  {
    if n == 0 {
      forall i: nat
        ensures Bit(x, i) == Bit(0, i)
      {
        ZeroBits(i);
      }
      BitsDetermine(x, 0);
    } else {
      forall j: nat | n - 1 <= j
        ensures Bit(x / 2, j) == 0
      {
        BitsOfDouble(x / 2, x % 2, j);
      }
      BitsBound(x / 2, n - 1);
    }
  }

  /**
   * create_selected_channel_mask: bit i of the mask is set exactly when
   * check box i is checked, and no bit at or above the number of boxes is.
   */
  method CreateSelectedChannelMask(checked: seq<bool>) returns (mask: nat)
    ensures forall i: nat :: Bit(mask, i) == (if i < |checked| && checked[i] then 1 else 0)
    ensures mask < Pow2(|checked|)
  {
    mask := 0;
    forall j: nat
      ensures Bit(0, j) == 0
    {
      ZeroBits(j);
    }
    var i := 0;
    while i < |checked|
      invariant Marked(mask, checked, i)
    {
      if checked[i] {
        MarkChecked(mask, checked, i);
        mask := Or(mask, Pow2(i));
      }
      i := i + 1;
    }
    BitsBound(mask, |checked|);
  }

  // ---------------------------------------------------------------------
  // The channel count loop

  /** One turn of `chanMask >>= 1` on a byte mask: bit `channel` is the low bit left, and channel stays below 8. */
  lemma ByteShiftTurn(mask: Byte, m: nat, channel: nat)
    requires m == mask / Pow2(channel) && m > 0
    ensures Bit(mask, channel) == m % 2 && mask / Pow2(channel + 1) == m / 2 && channel < 8
  {
    ShiftStep(mask, channel);
    ByteBound(mask);
    ShiftBound(mask, channel, 8);
  }

  lemma ByteBound(x: Byte)
    ensures x < Pow2(8)
  {
    Pow2Eight();
  }

  /** Something is left of x after i shifts only while i is below its width n. */
  lemma ShiftBound(x: nat, i: nat, n: nat)
    requires x < Pow2(n) && x / Pow2(i) > 0
    ensures i < n
  {
    var p := Pow2(i);
    assert x >= p by {
      assert x == (x / p) * p + x % p;
      MulAtLeast(x / p, p);
    }
    if i >= n {
      Pow2Monotone(n, i);
    }
  }

  /** Once nothing is left of the mask, the set bits counted are all of them. */
  lemma ByteShiftDone(mask: Byte, channel: nat)
    requires mask / Pow2(channel) == 0 && channel <= 8
    ensures PopCount(mask, 8) == PopCount(mask, channel)
  {
    var p := Pow2(channel);
    assert mask == (mask / p) * p + mask % p;
    SetBitsAbove(mask, channel, 8);
  }

  /** The loop of read_and_display_data that counts the channels of g_chan_mask. */
  method NumChannels(mask: Byte) returns (n: nat)
    ensures n == PopCount(mask, 8)
  {
    var m: nat := mask;
    var channel: nat := 0;
    n := 0;
    while m > 0
      invariant m == mask / Pow2(channel) && channel <= 8 && n == PopCount(mask, channel)
      decreases m
    {
      ByteShiftTurn(mask, m, channel);
      if m % 2 == 1 {
        n := n + 1;
      }
      channel := channel + 1;
      m := m / 2;
    }
    ByteShiftDone(mask, channel);
  }

  // ---------------------------------------------------------------------
  // copy_hat_data_to_display_buffer

  /** The last n values of s, or all of s when it is shorter. */
  function Newest<T>(s: seq<T>, n: nat): (r: seq<T>)
    ensures |r| == Min(n, |s|)
  {
    if n < |s| then s[|s| - n..] else s
  }

  /** Keeping a newest part and appending, then taking the newest b, is taking the newest b of the whole. */
  lemma NewestAppend<T>(h: seq<T>, a: nat, s: seq<T>, b: nat)
    requires a <= |h| && b <= a + |s|
    ensures Newest(Newest(h, a) + s, b) == Newest(h + s, b)
  {
    var kept := h[|h| - a..];
    assert Newest(h, a) == kept;
    if b < |kept + s| {
      assert (kept + s)[|kept + s| - b..] == (h + s)[|h + s| - b..];
    }
  }

  /**
   * copy_hat_data_to_display_buffer with samples_per_chan_displayed scans
   * in a buffer of display_buf_size_samples scans: the count it returns is
   * the number of scans shown, and the buffer then holds the newest of
   * (the scans shown before ++ the scans read), in order.  Nothing beyond
   * them changes.  The shift of the kept scans is a move between
   * overlapping ranges; see ShiftOverlapsAsWritten.
   */
  method CopyHatDataToDisplayBuffer(readBuf: array<real>, read: int, display: array<real>,
                                    displayed: nat, size: nat, nc: nat) returns (r: nat)
    requires readBuf != display
    requires displayed <= size && size * nc <= display.Length
    requires read > 0 ==> read * nc <= readBuf.Length
    modifies display
    ensures r == (if read <= 0 then displayed else Min(displayed + read, size))
    ensures display[..r * nc] == Newest(old(display[..displayed * nc]) + readBuf[..Max(read, 0) * nc], r * nc)
    ensures display[r * nc..] == old(display[r * nc..])
  {
    ghost var shown := display[..displayed * nc];
    if read > 0 {
      WindowSizes(displayed, read, size, nc);
      var fits := displayed + read <= size;
      ghost var added := readBuf[..read * nc];
      var T := CopyScans(readBuf, display, displayed * nc, read * nc, size * nc, fits, read > size);
      if fits {
        r := displayed + read;
      } else {
        r := size;
      }
      assert r * nc == T;
      assert readBuf[..Max(read, 0) * nc] == added;
    } else {
      r := displayed;
      assert Max(read, 0) * nc == 0;
      assert shown + readBuf[..Max(read, 0) * nc] == shown;
    }
  }

  /**
   * The three cases on D values shown, R values read and a buffer of S
   * values: the values read fit behind the ones shown; more were read than
   * the buffer holds; or the newest S - R shown move to the front and the
   * values read follow them.
   */
  method CopyScans(readBuf: array<real>, display: array<real>, D: nat, R: nat, S: nat,
                   fits: bool, overwrite: bool) returns (T: nat)
    requires readBuf != display && D <= S <= display.Length && R <= readBuf.Length
    requires fits ==> D + R <= S
    requires !fits ==> S <= D + R
    requires overwrite ==> !fits && S <= R
    requires !fits && !overwrite ==> R <= S
    modifies display
    ensures T == (if fits then D + R else S)
    ensures display[..T] == Newest(old(display[..D]) + readBuf[..R], T)
    ensures display[T..] == old(display[T..])
  {
    ghost var before := display[..];
    if fits {
      CopyValues(readBuf, 0, display, D, R);
      T := D + R;
      AppendWindow(before, display[..], readBuf[..R], D);
    } else if overwrite {
      CopyValues(readBuf, R - S, display, 0, S);
      T := S;
      OverwriteWindow(before, display[..], readBuf[..R], D, S);
    } else {
      var start := D + R - S;
      var K := S - R;
      MoveDown(display, start, K);
      ghost var moved := display[..];
      CopyValues(readBuf, 0, display, K, R);
      T := S;
      ShiftWindow(before, moved, display[..], readBuf[..R], start, K, D);
    }
  }

  /** Case 1: the scans read fit behind the ones shown. */
  lemma AppendWindow(a: seq<real>, b: seq<real>, added: seq<real>, D: nat)
    requires D + |added| <= |a| && b == a[..D] + added + a[D + |added|..]
    ensures b[..D + |added|] == Newest(a[..D] + added, D + |added|)
    ensures b[D + |added|..] == a[D + |added|..]
  {
    assert b[..D + |added|] == a[..D] + added;
  }

  /** Case 2: more scans were read than the window holds; the newest S values read replace everything. */
  lemma OverwriteWindow(a: seq<real>, b: seq<real>, added: seq<real>, D: nat, S: nat)
    requires D <= |a| && S <= |added| && S <= |a| && b == added[|added| - S..] + a[S..]
    ensures b[..S] == Newest(a[..D] + added, S)
    ensures b[S..] == a[S..]
  {
    var w := a[..D] + added;
    assert b[..S] == added[|added| - S..];
    if S < |w| {
      assert w[|w| - S..] == added[|added| - S..];
    }
  }

  /** Case 3: the newest K values shown move down to index 0 and the values read follow them. */
  lemma ShiftWindow(a: seq<real>, moved: seq<real>, b: seq<real>, added: seq<real>, start: nat, K: nat, D: nat)
    requires start + K == D && D <= |a| && K + |added| <= |a|
    requires moved == a[start..start + K] + a[K..]
    requires b == moved[..K] + added + moved[K + |added|..]
    ensures b[..K + |added|] == Newest(a[..D] + added, K + |added|)
    ensures b[K + |added|..] == a[K + |added|..]
  {
    var w := a[..D] + added;
    assert b[..K + |added|] == a[start..D] + added;
    assert w[|w| - (K + |added|)..] == a[start..D] + added;
  }

  /** The products of scan counts and nc the three cases of copy_hat_data_to_display_buffer use, as sums. */
  lemma WindowSizes(displayed: nat, read: nat, size: nat, nc: nat)
    requires displayed <= size
    ensures displayed * nc <= size * nc
    ensures (displayed + read) * nc == displayed * nc + read * nc
    ensures displayed + read <= size ==> displayed * nc + read * nc <= size * nc
    ensures displayed + read > size ==> size * nc <= displayed * nc + read * nc
    ensures read > size ==> size * nc <= read * nc
    ensures read <= size ==> read * nc <= size * nc
  {
    MulLeq(displayed, size, nc);
    MulAdd(displayed, read, nc);
    if displayed + read <= size {
      MulLeq(displayed + read, size, nc);
    } else {
      MulLeq(size, displayed + read, nc);
    }
    if read > size {
      MulLeq(size, read, nc);
    } else {
      MulLeq(read, size, nc);
    }
  }

  /** memcpy(&to[at], &from[src], n) between different arrays. */
  method CopyValues(from: array<real>, src: nat, to: array<real>, at: nat, n: nat)
    requires from != to && src + n <= from.Length && at + n <= to.Length
    modifies to
    ensures to[..] == old(to[..at]) + from[src..src + n] + old(to[at + n..])
  {
    forall k | 0 <= k < n {
      to[at + k] := from[src + k];
    }
    assert to[..] == old(to[..at]) + from[src..src + n] + old(to[at + n..]);
  }

  /** Moving n values of a down to index 0 from index start, as memmove does when the ranges overlap. */
  method MoveDown(a: array<real>, start: nat, n: nat)
    requires start + n <= a.Length
    modifies a
    ensures a[..] == old(a[start..start + n]) + old(a[n..])
  {
    forall k | 0 <= k < n {
      a[k] := a[start + k];
    }
    assert a[..] == old(a[start..start + n]) + old(a[n..]);
  }

  /**
   * The shift case as written copies the kept scans with memcpy, from
   * index (displayed - keep) * nc to index 0; the two ranges of keep * nc
   * values overlap when the source starts before the destination ends,
   * and memcpy between overlapping ranges is undefined in C.
   */
  predicate ShiftOverlapsAsWritten(displayed: nat, read: int, size: nat, nc: nat)
  {
    0 < read <= size < displayed + read && (displayed - (size - read)) * nc < (size - read) * nc
  }

  /**
   * In a continuous acquisition the buffer is full, and from then on every
   * read of fewer than half a window of scans takes the overlapping path.
   */
  lemma FullBufferShiftOverlapsAsWritten(read: nat, size: nat, nc: nat)
    requires 0 < read && 2 * read < size && nc > 0
    ensures ShiftOverlapsAsWritten(size, read, size, nc)
  {
    MulLess(size - (size - read), size - read, nc);
  }

  // ---------------------------------------------------------------------
  // copy_data_to_xy_arrays

  /**
   * copy_data_to_xy_arrays: for each sample number from start_sample up to
   * g_sample_count, X gets the sample number and Y the value stride apart
   * from read_buf_start_index on, both from index 0.  The arrays are the
   * channel's graph arrays, at least that long.
   */
  method CopyDataToXYArrays(display: array<real>, startIndex: nat, stride: nat, startSample: nat,
                            sampleCount: nat, x: array<real>, y: array<real>)
    requires x != y && x != display && y != display
    requires sampleCount - startSample <= x.Length && sampleCount - startSample <= y.Length
    requires forall k :: 0 <= k < sampleCount - startSample ==> startIndex + k * stride < display.Length
    modifies x, y
    ensures forall k :: 0 <= k < sampleCount - startSample ==> x[k] == (startSample + k) as real
    ensures forall k :: 0 <= k < sampleCount - startSample ==> y[k] == display[startIndex + k * stride]
    ensures x[Max(sampleCount - startSample, 0)..] == old(x[Max(sampleCount - startSample, 0)..])
    ensures y[Max(sampleCount - startSample, 0)..] == old(y[Max(sampleCount - startSample, 0)..])
  {
    var sample := startSample;
    var idx: nat := 0;
    var i := startIndex;
    ghost var n := Max(sampleCount - startSample, 0);
    while sample < sampleCount
      invariant idx <= n && sample == startSample + idx
      invariant i == startIndex + idx * stride
      invariant forall k :: 0 <= k < idx ==> x[k] == (startSample + k) as real
      invariant forall k :: 0 <= k < idx ==> y[k] == display[startIndex + k * stride]
      invariant x[idx..] == old(x[idx..]) && y[idx..] == old(y[idx..])
    {
      x[idx] := sample as real;
      y[idx] := display[i];
      MulAdd(idx, 1, stride);
      idx := idx + 1;
      i := i + stride;
      sample := sample + 1;
    }
  }

  // ---------------------------------------------------------------------
  // read_and_display_data

  /** The logger's own codes for a scan status error (errors.h). */
  const HW_OVERRUN: int := -200
  const BUFFER_OVERRUN: int := -201

  /**
   * The error a read reports: the library's failure, else BUFFER_OVERRUN
   * when the status shows one, else HW_OVERRUN when the status shows one.
   */
  function ReadError(result: ResultCode, status: nat): (e: Option<int>)
    ensures result != Success ==> e == Some(Code(result))
    ensures result == Success ==> (e == None <==> Bit(status, 0) == 0 && Bit(status, 1) == 0)
    ensures e == Some(HW_OVERRUN) <==> result == Success && Bit(status, 1) == 0 && Bit(status, 0) == 1
  {
    if result == Success && Bit(status, 1) == 1 then Some(BUFFER_OVERRUN)
    else if result == Success && Bit(status, 0) == 1 then Some(HW_OVERRUN)
    else if result != Success then Some(Code(result))
    else None
  }

  /** The first sample number shown: max(0, g_sample_count - window). */
  function StartSample(count: nat, window: nat): (s: nat)
    ensures s <= count && count - s == Min(count, window)
  {
    if count >= window then count - window else 0
  }

  /**
   * The worker thread's state between two reads.  window is g_num_samples
   * (MCC 118) or g_fft_size (MCC 172) scans; history is every value read
   * so far, which only the proof needs.
   */
  class Acquisition {
    var sampleCount: nat
    var displayed: nat
    const display: array<real>
    const window: nat
    const numChannels: nat
    const continuous: bool
    const readBufSize: nat
    ghost var history: seq<real>

    /**
     * The display buffer holds the newest Min(g_sample_count, window) scans
     * read, and a finite acquisition never reads past its window.
     */
    ghost predicate Valid()
      reads this, display
    {
      display.Length == window * numChannels && numChannels > 0
      && displayed == Min(sampleCount, window)
      && |history| == sampleCount * numChannels
      && displayed * numChannels <= |history|
      && display[..displayed * numChannels] == Newest(history, displayed * numChannels)
      && (!continuous ==> sampleCount <= window)
    }

    /** The start of read_and_display_data: no samples, an empty display buffer of window scans. */
    constructor (window: nat, numChannels: nat, continuous: bool, readBufSize: nat)
      requires numChannels > 0
      ensures Valid() && fresh(display)
      ensures this.window == window && this.numChannels == numChannels
      ensures this.continuous == continuous && this.readBufSize == readBufSize
      ensures sampleCount == 0 && displayed == 0 && history == []
    {
      this.window := window;
      this.numChannels := numChannels;
      this.continuous := continuous;
      this.readBufSize := readBufSize;
      MulNonNeg(window, numChannels);
      display := new real[window * numChannels];
      sampleCount := 0;
      displayed := 0;
      history := [];
    }

    /** samples_to_read: the whole read buffer, or what is left of a finite window. */
    function Request(): (n: nat)
      reads this, display
      requires Valid()
      ensures !continuous ==> n == (window - sampleCount) * numChannels
    {
      if continuous then readBufSize
      else
        MulNonNeg(window - sampleCount, numChannels);
        (window - sampleCount) * numChannels
    }

    lemma RequestBound(read: nat)
      requires Valid() && read * numChannels <= Request() && !continuous
      ensures sampleCount + read <= window
    {
      if sampleCount + read > window {
        MulLess(window - sampleCount, read, numChannels);
      }
    }

    /**
     * One pass of the read loop, given what the read returned: read scans in
     * readBuf, the read's result and status.  g_sample_count grows by the
     * scans read, the display buffer keeps its newest window, and the pass
     * asks for the scan to stop on a read error, on a failed log write
     * (logStatus < 0), or when a finite acquisition has its whole window.
     */
    method ReadPass(readBuf: array<real>, read: nat, result: ResultCode, status: nat, logStatus: int)
      returns (error: Option<int>, stop: bool)
      requires Valid() && readBuf != display
      requires read * numChannels <= Request() && read * numChannels <= readBuf.Length
      modifies this, display
      ensures Valid()
      ensures sampleCount == old(sampleCount) + read
      ensures history == old(history) + readBuf[..read * numChannels]
      ensures error == ReadError(result, status)
      ensures stop <==> error.Some? || logStatus < 0 || (!continuous && sampleCount == window)
    {
      if !continuous {
        RequestBound(read);
      }
      ghost var h := history;
      ghost var shownBefore := display[..displayed * numChannels];
      error := ReadError(result, status);
      var shown := CopyHatDataToDisplayBuffer(readBuf, read, display, displayed, window, numChannels);
      ghost var added := readBuf[..read * numChannels];
      sampleCount := sampleCount + read;
      displayed := shown;
      history := h + added;
      MulAdd(old(sampleCount), read, numChannels);
      PassKeepsWindow(h, shownBefore, added, old(displayed), read, window, numChannels, old(sampleCount));
      stop := error.Some? || logStatus < 0 || (!continuous && sampleCount == window);
    }

    /**
     * The loop over the channels of g_chan_mask after a pass, for the j-th
     * selected channel: its graph arrays, sized Min(g_sample_count, window)
     * by allocate_channel_xy_arrays, get sample number start_sample + k and
     * that channel's value of the same sample, for every k.
     */
    method PlotChannel(j: nat, x: array<real>, y: array<real>)
      requires Valid() && j < numChannels
      requires x != y && x != display && y != display
      requires x.Length == Min(sampleCount, window) && y.Length == Min(sampleCount, window)
      modifies x, y
      ensures forall k :: 0 <= k < x.Length ==> x[k] == (StartSample(sampleCount, window) + k) as real
      ensures forall k :: 0 <= k < y.Length ==> y[k] == Sample(history, numChannels, StartSample(sampleCount, window) + k, j)
    {
      var start := StartSample(sampleCount, window);
      var n := sampleCount - start;
      ghost var shown := display[..displayed * numChannels];
      assert shown == Newest(history, n * numChannels);
      forall k | 0 <= k < n
        ensures j + k * numChannels < display.Length
      {
        IndexFits(j, k, n, numChannels, window);
      }
      CopyDataToXYArrays(display, j, numChannels, start, sampleCount, x, y);
      forall k | 0 <= k < n
        ensures y[k] == Sample(history, numChannels, start + k, j)
      {
        WindowIndex(history, shown, sampleCount, start, n, numChannels, j, k);
        assert y[k] == display[j + k * numChannels];
      }
    }
  }

  /** The state after a pass: the newest window of the old history extended by the scans read. */
  lemma PassKeepsWindow(h: seq<real>, shown: seq<real>, added: seq<real>, displayed: nat, read: nat,
                        window: nat, nc: nat, count: nat)
    requires nc > 0 && |h| == count * nc && |added| == read * nc
    requires displayed == Min(count, window) && displayed * nc <= |h| && shown == Newest(h, displayed * nc)
    ensures Min(count + read, window) == (if read <= 0 then displayed else Min(displayed + read, window))
    ensures Min(count + read, window) * nc <= |h + added|
    ensures Newest(shown + added, Min(count + read, window) * nc) == Newest(h + added, Min(count + read, window) * nc)
  {
    var b := Min(count + read, window);
    MulAdd(count, read, nc);
    MulAdd(displayed, read, nc);
    MulLeq(b, count + read, nc);
    MulLeq(b, displayed + read, nc);
    NewestAppend(h, displayed * nc, added, b * nc);
  }

  lemma IndexFits(j: nat, k: nat, n: nat, nc: nat, window: nat)
    requires j < nc && k < n <= window
    ensures j + k * nc < window * nc
  {
    MulAdd(k, 1, nc);
    MulLeq(k + 1, window, nc);
  }

  /** The value of channel j in scan s of interleaved values h (0.0 past the end). */
  ghost function Sample(h: seq<real>, nc: nat, s: nat, j: nat): real
  {
    if s * nc + j < |h| then h[s * nc + j] else 0.0
  }

  /** Value k * nc + j of the shown window is value (start + k) * nc + j of the history. */
  lemma WindowIndex(h: seq<real>, shown: seq<real>, count: nat, start: nat, n: nat, nc: nat, j: nat, k: nat)
    requires |h| == count * nc && n == count - start && start <= count && n * nc <= |h|
    requires shown == Newest(h, n * nc) && j < nc && k < n
    ensures j + k * nc < |shown| && shown[j + k * nc] == Sample(h, nc, start + k, j)
  {
    MulSub(count, n, nc);
    MulAdd(start, k, nc);
    MulLess(k, n, nc);
    MulAdd(k, 1, nc);
    MulLeq(k + 1, n, nc);
  }

  // ---------------------------------------------------------------------
  // start_stop_event_handler (MCC 118)

  /** The rate the rate box shows after Start: the actual rate when the library gives one, else the entered rate. */
  function ShownRate(channelCount: nat, rate: real): (shown: real)
    ensures Mcc118.ActualRate(channelCount, rate).0 != Success ==> shown == rate
  {
    var (result, actual) := Mcc118.ActualRate(channelCount, rate);
    if result == Success then actual else rate
  }

  /**
   * The Start handler as written counts the channels of a local mask that
   * is initialised to 0 and never given g_chan_mask, so it asks for the
   * actual rate of 0 channels.
   */
  function StartRateAsWritten(chanMask: Byte, rate: real): real
  {
    ShownRate(PopCount(0, 8), rate)
  }

  /** As written, the library always refuses the request, so the rate box is never corrected. */
  lemma StartRateNeverCorrectedAsWritten(chanMask: Byte, rate: real)
    ensures Mcc118.ActualRate(PopCount(0, 8), rate).0 == BadParameter
    ensures StartRateAsWritten(chanMask, rate) == rate
  {
    PopCountZeroMask(8);
  }

  lemma {:induction false} PopCountZeroMask(n: nat)
    ensures PopCount(0, n) == 0
  {
    if n > 0 {
      PopCountZeroMask(n - 1);
      ZeroBits(n - 1);
    }
  }

  /** The rate the Start handler shows, counting the channels of g_chan_mask. */
  function StartRate(chanMask: Byte, rate: real): real
  {
    ShownRate(PopCount(chanMask, 8), rate)
  }

  /**
   * With the channels counted, a selection the library accepts shows the
   * rate the pacer really runs at, CLOCK_TIMEBASE over its divider.
   */
  lemma StartRateIsActual(chanMask: Byte, rate: real)
    requires chanMask != 0
    requires PopCount(chanMask, 8) as real * rate <= Mcc118.MAX_ADC_RATE
    ensures StartRate(chanMask, rate) == Mcc118.ActualRate(PopCount(chanMask, 8), rate).1
    ensures StartRate(chanMask, rate) * (Mcc118.Period(rate) + 1) as real == Mcc118.CLOCK_TIMEBASE
  {
    PopCountByte(chanMask);
  }

  /** The scan options of Start: OPTS_CONTINUOUS exactly for a continuous acquisition. */
  function StartOptions(continuous: bool): (options: nat)
    ensures continuous <==> options == OPTS_CONTINUOUS
    ensures !continuous ==> options == OPTS_DEFAULT
  {
    if continuous then OPTS_CONTINUOUS else OPTS_DEFAULT
  }
}
