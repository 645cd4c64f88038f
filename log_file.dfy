// The CSV log file of the MCC 134 data logger example
// (examples/c/mcc134/data_logger/logger/log_file.c): splitting the default
// path into directory and file name, the header of channel labels, one line
// of comma-terminated values per scan, and the error shown when a write
// fails.  The file is a sequence of the texts its fprintf calls wrote; what
// each call returns is a parameter of the file.

module LogFile {
  import opened DaqHats
  import opened Text

  /** The logger's error codes for a failed write (errors.h of the logger). */
  const MAXIMUM_FILE_SIZE_EXCEEDED: int := -102
  const UNKNOWN_ERROR: int := -999

  // ---------------------------------------------------------------------
  // get_path_and_filename

  /** The directory part, through the last '/', and the file name after it. */
  datatype PathParts = PathParts(path: string, filename: string)

  /**
   * get_path_and_filename: the path is cut just after its last '/'.  With
   * no '/' strrchr returns NULL and the length computed from it is
   * meaningless; that is None.
   */
  function PathAndFilename(full: string): (r: Option<PathParts>)
    ensures r.None? <==> '/' !in full
    ensures r.Some? ==> r.value.path + r.value.filename == full
    ensures r.Some? ==> |r.value.path| > 0 && r.value.path[|r.value.path| - 1] == '/'
    ensures r.Some? ==> '/' !in r.value.filename
  {
    match LastIndex(full, '/')
    case None => None
    case Some(k) => Some(PathParts(full[..k + 1], full[k + 1..]))
  }

  /** There is one way to split a path into a directory ending in '/' and a name without one. */
  lemma PathSplitUnique(full: string, path: string, filename: string)
    requires path + filename == full && |path| > 0 && path[|path| - 1] == '/' && '/' !in filename
    ensures PathAndFilename(full) == Some(PathParts(path, filename))
  {
    var k := LastIndex(full, '/');
    assert full[|path| - 1] == '/';
    assert k.Some?;
    assert k.value == |path| - 1;
    assert full[..k.value + 1] == path;
    assert full[k.value + 1..] == filename;
  }

  // ---------------------------------------------------------------------
  // check_log_file_error

  /**
   * check_log_file_error: the error shown for the status of the last write;
   * -1 means the file grew past its maximum size.
   */
  function LogFileError(status: int): (r: Option<int>)
    ensures r.None? <==> status >= 0
    ensures r == Some(MAXIMUM_FILE_SIZE_EXCEEDED) <==> status == -1
    ensures r == Some(UNKNOWN_ERROR) <==> status < -1
  {
    if status == -1 then Some(MAXIMUM_FILE_SIZE_EXCEEDED)
    else if status < 0 then Some(UNKNOWN_ERROR)
    else None
  }

  // ---------------------------------------------------------------------
  // The file

  /** The text one fprintf call writes. */
  datatype Item =
    | ChannelLabel(channel: nat)   // "Chan %d, "
    | EndOfHeader                  // "\n"
    | Scan(values: seq<real>)      // "%2.6lf," for each value, then "\n"

  /**
   * How many of n writes in a row get through when the first failure ends
   * the run: the statuses of the first k are positive and, when k < n, the
   * next one is not.
   */
  function Succeeded(outcome: nat -> int, start: nat, n: nat): (k: nat)
    ensures k <= n
    ensures forall j :: start <= j < start + k ==> outcome(j) > 0
    ensures k < n ==> outcome(start + k) <= 0
    decreases n
  {
    if n == 0 || outcome(start) <= 0 then 0 else 1 + Succeeded(outcome, start + 1, n - 1)
  }

  /** Those conditions determine the count. */
  lemma SucceededUnique(outcome: nat -> int, start: nat, n: nat, k: nat)
    requires k <= n
    requires forall j :: start <= j < start + k ==> outcome(j) > 0
    requires k < n ==> outcome(start + k) <= 0
    ensures Succeeded(outcome, start, n) == k
  {
  }

  /** The writes made: the ones that got through and the failed one, if any. */
  function Attempted(k: nat, n: nat): nat
  {
    if k < n then k + 1 else k
  }

  /** The labels of the given channels. */
  function Labels(cs: seq<nat>): (r: seq<Item>)
    ensures |r| == |cs|
  {
    if |cs| == 0 then [] else Labels(cs[..|cs| - 1]) + [ChannelLabel(cs[|cs| - 1])]
  }

  /** The i-th label is that of the i-th channel. */
  lemma {:induction false} LabelsAt(cs: seq<nat>, i: nat)
    requires i < |cs|
    ensures Labels(cs)[i] == ChannelLabel(cs[i])
  {
    if i < |cs| - 1 {
      LabelsAt(cs[..|cs| - 1], i);
    }
  }

  /** A channel is labelled exactly when it is listed. */
  lemma {:induction false} LabelsMembers(cs: seq<nat>, c: nat)
    ensures ChannelLabel(c) in Labels(cs) <==> c in cs
  {
    if |cs| > 0 {
      LabelsMembers(cs[..|cs| - 1], c);
      assert cs == cs[..|cs| - 1] + [cs[|cs| - 1]];
    }
  }

  /**
   * A header written in full labels exactly the channels of the mask below
   * max_channels, one label per channel.
   */
  lemma HeaderLabels(mask: Byte, n: nat)
    ensures |Labels(SetBits(mask, n))| == PopCount(mask, n)
    ensures forall c: nat :: ChannelLabel(c) in Labels(SetBits(mask, n)) <==> c < n && Bit(mask, c) == 1
  {
    SetBitsSpec(mask, n);
    forall c: nat
      ensures ChannelLabel(c) in Labels(SetBits(mask, n)) <==> c < n && Bit(mask, c) == 1
    {
      LabelsMembers(SetBits(mask, n), c);
    }
  }

  /** The lines of the first k scans of interleaved values, nc values each. */
  function Scans(values: seq<real>, nc: nat, k: nat): (r: seq<Item>)
    requires k * nc <= |values|
    ensures |r| == k
  {
    if k == 0 then []
    else
      MulLeq(k - 1, k, nc);
      MulAdd(k - 1, 1, nc);
      Scans(values, nc, k - 1) + [Scan(values[(k - 1) * nc..k * nc])]
  }

  lemma MulAdd(a: nat, b: nat, c: nat)
    ensures (a + b) * c == a * c + b * c
  {
  }

  /** The values of the lines, one after the other. */
  function Flatten(items: seq<Item>): seq<real>
  {
    if |items| == 0 then []
    else Flatten(items[..|items| - 1]) + (if items[|items| - 1].Scan? then items[|items| - 1].values else [])
  }

  /** The lines of k scans hold exactly the first k scans' values, each line one scan of nc values. */
  lemma {:induction false} ScansFlatten(values: seq<real>, nc: nat, k: nat)
    requires k * nc <= |values|
    ensures Flatten(Scans(values, nc, k)) == values[..k * nc]
    ensures forall i :: 0 <= i < k ==> Scans(values, nc, k)[i].Scan? && |Scans(values, nc, k)[i].values| == nc
  {
    if k > 0 {
      MulLeq(k - 1, k, nc);
      MulAdd(k - 1, 1, nc);
      var lo, hi := (k - 1) * nc, k * nc;
      ScansFlatten(values, nc, k - 1);
      var init := Scans(values, nc, k - 1);
      var row := values[lo..hi];
      assert Scans(values, nc, k) == init + [Scan(row)];
      FlattenSnoc(init, Scan(row));
      assert values[..hi] == values[..lo] + row;
    }
  }

  lemma FlattenSnoc(items: seq<Item>, it: Item)
    ensures Flatten(items + [it]) == Flatten(items) + (if it.Scan? then it.values else [])
  {
    assert (items + [it])[..|items|] == items;
  }

  /** An open log file: what its fprintf calls have written, and the status each call returns. */
  class LogFile {
    /** The texts written so far, in order. */
    var items: seq<Item>
    /** The number of fprintf calls made so far. */
    var writes: nat
    /** The status of the n-th fprintf call: positive when it wrote its text, otherwise the text is not written. */
    const outcome: nat -> int

    /** The file as fopen leaves it: empty. */
    constructor (outcome: nat -> int)
      ensures items == [] && writes == 0 && this.outcome == outcome
    {
      items := [];
      writes := 0;
      this.outcome := outcome;
    }

    /** One fprintf call. */
    method Write(item: Item) returns (status: int)
      modifies this
      ensures status == outcome(old(writes)) && writes == old(writes) + 1
      ensures items == old(items) + (if status > 0 then [item] else [])
    {
      status := outcome(writes);
      if status > 0 {
        items := items + [item];
      }
      writes := writes + 1;
    }

    /**
     * init_log_file: "Chan i, " for each channel i below max_channels in
     * the mask, in ascending order, stopping at the first failed write;
     * then "\n" whatever happened before.  The status returned, and shown
     * as an error when negative, is that of the newline.
     */
    method InitLogFile(chanMask: Byte, maxChannels: int) returns (status: int, shown: Option<int>)
      modifies this
      ensures var cs := SetBits(chanMask, if maxChannels < 0 then 0 else maxChannels);
        var k := Succeeded(outcome, old(writes), |cs|);
        var a := Attempted(k, |cs|);
        writes == old(writes) + a + 1 && status == outcome(old(writes) + a)
        && items == old(items) + Labels(cs[..k]) + (if status > 0 then [EndOfHeader] else [])
      ensures shown == LogFileError(status)
    {
      var n: nat := if maxChannels < 0 then 0 else maxChannels;
      ghost var cs := SetBits(chanMask, n);
      ghost var c0, w0 := writes, items;
      ghost var done, stopped := WriteLabels(chanMask, n);
      SucceededUnique(outcome, c0, |cs|, |done|);
      assert writes == c0 + Attempted(|done|, |cs|);
      assert items == w0 + Labels(cs[..|done|]);
      status := Write(EndOfHeader);
      shown := LogFileError(status);
    }

    /**
     * The channel loop of init_log_file: the labels written are the first
     * of the channels in the mask, all of them unless a write failed.
     */
    method WriteLabels(chanMask: Byte, n: nat) returns (ghost done: seq<nat>, ghost stopped: bool)
      modifies this
      ensures |done| <= |SetBits(chanMask, n)| && SetBits(chanMask, n)[..|done|] == done
      ensures stopped <==> |done| < |SetBits(chanMask, n)|
      ensures writes == old(writes) + |done| + (if stopped then 1 else 0)
      ensures forall j :: old(writes) <= j < old(writes) + |done| ==> outcome(j) > 0
      ensures stopped ==> outcome(old(writes) + |done|) <= 0
      ensures items == old(items) + Labels(done)
    {
      ghost var c0 := writes;
      ghost var w0 := items;
      done, stopped := [], false;
      var mask: nat := chanMask;
      var i := 0;
      while i < n
        invariant 0 <= i <= n && mask == chanMask / Pow2(i)
        invariant LabelLoop(chanMask, i, done, c0, writes, w0, items, outcome)
      {
        LabelTurn(chanMask, i, mask);
        if mask % 2 == 1 {
          var st := Write(ChannelLabel(i));
          if st <= 0 {
            InitStopped(chanMask, i, n);
            stopped := true;
            return;
          }
          LabelsSnoc(done, i);
          done := done + [i];
        }
        i := i + 1;
        mask := mask / 2;
      }
      assert SetBits(chanMask, n)[..|done|] == done;
    }

    /**
     * write_log_file: one line per scan, each the scan's numberOfChannels
     * values taken in turn from the interleaved buffer, stopping at the
     * first failed write.  The status returned, and shown as an error when
     * negative, is that of the last write, or 0 when there was no scan.
     */
    method WriteLogFile(readBuf: array<real>, samplesPerChannel: int, numberOfChannels: int)
      returns (status: int, shown: Option<int>)
      requires samplesPerChannel > 0 && numberOfChannels > 0 ==> samplesPerChannel * numberOfChannels <= readBuf.Length
      modifies this
      ensures var n := if samplesPerChannel < 0 then 0 else samplesPerChannel;
        var nc := if numberOfChannels < 0 then 0 else numberOfChannels;
        var k := Succeeded(outcome, old(writes), n);
        var a := Attempted(k, n);
        k * nc <= readBuf.Length
        && writes == old(writes) + a
        && status == (if n == 0 then 0 else outcome(old(writes) + a - 1))
        && items == old(items) + Scans(readBuf[..], nc, k)
      ensures shown == LogFileError(status)
    {
      var n: nat := if samplesPerChannel < 0 then 0 else samplesPerChannel;
      var nc: nat := if numberOfChannels < 0 then 0 else numberOfChannels;
      assert n * nc <= readBuf.Length by {
        if n == 0 || nc == 0 {
          assert n * nc == 0;
        }
      }
      status := WriteScans(readBuf, n, nc);
      shown := LogFileError(status);
    }

    /**
     * The scan loop of write_log_file, for n scans of nc values (a negative
     * count in the C code runs no loop, as 0 does here).
     */
    method WriteScans(readBuf: array<real>, n: nat, nc: nat) returns (status: int)
      requires n * nc <= readBuf.Length
      modifies this
      ensures var k := Succeeded(outcome, old(writes), n);
        var a := Attempted(k, n);
        k * nc <= readBuf.Length
        && writes == old(writes) + a
        && status == (if n == 0 then 0 else outcome(old(writes) + a - 1))
        && items == old(items) + Scans(readBuf[..], nc, k)
    {
      ghost var c0 := writes;
      ghost var w0 := items;
      ghost var values := readBuf[..];
      status := 0;
      var scanStart := 0;
      var i := 0;
      while i < n
        invariant 0 <= i <= n && writes == c0 + i && scanStart == i * nc
        invariant forall j :: c0 <= j < c0 + i ==> outcome(j) > 0
        invariant i * nc <= |values|
        invariant items == w0 + Scans(values, nc, i)
        invariant i == 0 ==> status == 0
        invariant i > 0 ==> status == outcome(c0 + i - 1)
      {
        RowBounds(i, n, nc, |values|);
        var row := ScanValues(readBuf, scanStart, nc);
        RowStep(w0, items, values, nc, i, row);
        status := Write(Scan(row));
        if status <= 0 {
          SucceededUnique(outcome, c0, n, i);
          return;
        }
        i := i + 1;
        scanStart := scanStart + nc;
      }
      SucceededUnique(outcome, c0, n, i);
    }
  }

  /** The inner loop of write_log_file: the values of one scan, in channel order. */
  method ScanValues(readBuf: array<real>, scanStart: int, numberOfChannels: int) returns (row: seq<real>)
    requires numberOfChannels > 0 ==> 0 <= scanStart && scanStart + numberOfChannels <= readBuf.Length
    ensures row == if numberOfChannels <= 0 then [] else readBuf[scanStart..scanStart + numberOfChannels]
  {
    row := [];
    var j := 0;
    while j < numberOfChannels
      invariant 0 <= j && (numberOfChannels > 0 ==> j <= numberOfChannels)
      invariant row == if numberOfChannels <= 0 then [] else readBuf[scanStart..scanStart + j]
    {
      row := row + [readBuf[scanStart + j]];
      j := j + 1;
    }
  }

  lemma RowBounds(i: nat, n: nat, nc: nat, len: nat)
    requires i < n && n * nc <= len
    ensures (i + 1) * nc == i * nc + nc && i * nc + nc <= len
  {
    MulAdd(i, 1, nc);
    MulLeq(i + 1, n, nc);
  }

  /** The line of scan i follows the lines of the scans before it. */
  lemma RowStep(w0: seq<Item>, items: seq<Item>, values: seq<real>, nc: nat, i: nat, row: seq<real>)
    requires (i + 1) * nc == i * nc + nc && i * nc + nc <= |values|
    requires items == w0 + Scans(values, nc, i) && row == values[i * nc..i * nc + nc]
    ensures items + [Scan(row)] == w0 + Scans(values, nc, i + 1)
  {
  }

  /** The channel loop has written the labels of the selected channels below i, each write going through. */
  ghost predicate LabelLoop(x: nat, i: nat, done: seq<nat>, c0: nat, writes: nat, w0: seq<Item>, items: seq<Item>,
                            outcome: nat -> int)
  {
    done == SetBits(x, i) && writes == c0 + |done|
    && (forall j :: c0 <= j < c0 + |done| ==> outcome(j) > 0)
    && items == w0 + Labels(done)
  }

  /** One turn of the channel loop: m & 1 is the bit of channel i, and m >> 1 is what is left for the next. */
  lemma LabelTurn(x: nat, i: nat, m: nat)
    requires m == x / Pow2(i)
    ensures x / Pow2(i + 1) == m / 2 && Bit(x, i) == m % 2
    ensures SetBits(x, i + 1) == SetBits(x, i) + (if m % 2 == 1 then [i] else [])
  {
    ShiftStep(x, i);
  }

  lemma LabelsSnoc(cs: seq<nat>, c: nat)
    ensures Labels(cs + [c]) == Labels(cs) + [ChannelLabel(c)]
  {
  }

  /** A failed label write at channel i leaves out the selected channels from i on. */
  lemma InitStopped(mask: nat, i: nat, n: nat)
    requires i < n && SetBits(mask, i + 1) == SetBits(mask, i) + [i]
    ensures |SetBits(mask, i)| < |SetBits(mask, n)| && SetBits(mask, n)[..|SetBits(mask, i)|] == SetBits(mask, i)
  {
    SetBitsPrefix(mask, i + 1, n);
    SetBitsPrefix(mask, i, n);
  }
}
