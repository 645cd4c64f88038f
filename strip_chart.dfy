// What the web-server examples (examples/python/mcc172/web_server/web_server.py
// and examples/python/mcc134/web_server/web_server.py) share: the
// application status and the button label it shows, and the strip-chart
// data, init_chart_data and add_samples_to_data -- the sample numbers shown,
// one list of values per channel, the total sample count and the error flags
// the page keeps beside them.  The JSON round trip through the page is the
// identity here; a value is a JSON number or null.

module StripChart {
  import opened DaqHats
  import opened DataLogger

  /** A chart value: a number, or None (JSON null) where nothing is shown. */
  type Value = Option<real>

  /** A flag of the chart data is set: its key is present and true. */
  predicate Flagged(flags: map<string, bool>, key: string)
  {
    key in flags && flags[key]
  }

  /** The application status the page keeps: "idle", "configured", "running" or "error". */
  datatype AcqState = Idle | Configured | Running | Error

  /**
   * update_start_stop_button_name: "Start" once configured, "Stop" while
   * running, "Configure" otherwise.
   */
  function ButtonLabel(state: AcqState): (caption: string)
    ensures caption == "Start" <==> state == Configured
    ensures caption == "Stop" <==> state == Running
    ensures (state == Idle || state == Error) ==> caption == "Configure"
  {
    assert |"Start"| == 5 && |"Stop"| == 4 && |"Configure"| == 9;
    if state == Configured then "Start" else if state == Running then "Stop" else "Configure"
  }

  /** int() of a float: truncation toward zero. */
  function Trunc(x: real): (r: int)
    ensures 0.0 <= x ==> 0 <= r && r as real <= x < r as real + 1.0
    ensures x < 0.0 ==> r <= 0 && r as real - 1.0 < x <= r as real
  {
    if x < 0.0 then -((-x).Floor) else x.Floor
  }

  /** The sample numbers base + lo .. base + hi - 1. */
  function Count(base: int, lo: nat, hi: nat): (r: seq<int>)
    ensures |r| == if lo <= hi then hi - lo else 0
    ensures forall k :: 0 <= k < |r| ==> r[k] == base + lo + k
    decreases hi
  {
    if hi <= lo then [] else Count(base, lo, hi - 1) + [base + hi - 1]
  }

  /** Value c of scan s of values interleaved nc to a scan (None past the end). */
  ghost function At(values: seq<Value>, nc: nat, s: nat, c: nat): Value
  {
    if s * nc + c < |values| then values[s * nc + c] else None
  }

  /** Channel c of scans lo .. hi - 1 of values interleaved nc to a scan. */
  ghost function Column(values: seq<Value>, nc: nat, c: nat, lo: nat, hi: nat): (r: seq<Value>)
    ensures |r| == if lo <= hi then hi - lo else 0
    decreases hi
  {
    if hi <= lo then [] else Column(values, nc, c, lo, hi - 1) + [At(values, nc, hi - 1, c)]
  }

  /** Value c of scan s lies inside the first n scans. */
  lemma ScanIndex(s: nat, n: nat, nc: nat, c: nat)
    requires s < n && c < nc
    ensures s * nc + c < n * nc && (s + 1) * nc <= n * nc && (s + 1) * nc == s * nc + nc
  {
    MulLeq(s + 1, n, nc);
  }

  /** The k-th entry of a column is channel c of scan lo + k. */
  lemma {:induction false} ColumnAt(values: seq<Value>, nc: nat, c: nat, lo: nat, hi: nat, k: nat)
    requires lo + k < hi
    ensures Column(values, nc, c, lo, hi)[k] == At(values, nc, lo + k, c)
    decreases hi
  {
    if lo + k < hi - 1 {
      ColumnAt(values, nc, c, lo, hi - 1, k);
    }
  }

  lemma {:induction false} CountSplit(base: int, lo: nat, mid: nat, hi: nat)
    requires lo <= mid <= hi
    ensures Count(base, lo, hi) == Count(base, lo, mid) + Count(base, mid, hi)
    decreases hi
  {
    if mid < hi {
      CountSplit(base, lo, mid, hi - 1);
    }
  }

  lemma {:induction false} ColumnSplit(values: seq<Value>, nc: nat, c: nat, lo: nat, mid: nat, hi: nat)
    requires lo <= mid <= hi
    ensures Column(values, nc, c, lo, hi) == Column(values, nc, c, lo, mid) + Column(values, nc, c, mid, hi)
    decreases hi
  {
    if mid < hi {
      ColumnSplit(values, nc, c, lo, mid, hi - 1);
    }
  }

  /** Appending to a deque of maxlen m keeps the newest m of everything appended. */
  lemma DequeAppend<T>(x: seq<T>, m: nat, v: T)
    ensures Newest(Newest(x, m) + [v], m) == Newest(x + [v], m)
  {
    if m < |x| {
      NewestAppend(x, m, [v], m);
    }
  }

  /** Values pushed out of view make no difference to the newest m. */
  lemma NewestHidden<T>(x: seq<T>, a: seq<T>, b: seq<T>, m: nat)
    requires m <= |b|
    ensures Newest(x + (a + b), m) == Newest(x + b, m)
  {
    assert (x + (a + b))[|x + (a + b)| - m..] == b[|b| - m..];
    assert (x + b)[|x + b| - m..] == b[|b| - m..];
  }

  /** The chart data the page keeps between callbacks. */
  class ChartData {
    /** chart_data['samples']: the sample numbers shown. */
    var samples: seq<int>
    /** chart_data['data']: the values shown, one list per channel. */
    var data: seq<seq<Value>>
    /** chart_data['sample_count']: the samples read so far. */
    var sampleCount: int
    /** The error flags kept in chart_data beside the lists, by key; a key not yet written is absent. */
    var flags: map<string, bool>

    /**
     * init_chart_data: samples 0 .. n-1, n empty values for each channel,
     * no sample read and no flag.  A negative count gives empty lists, as range()
     * and list repetition do.
     */
    constructor Init(numberOfChannels: int, numberOfSamples: int)
      ensures samples == Count(0, 0, if numberOfSamples < 0 then 0 else numberOfSamples)
      ensures |data| == (if numberOfChannels < 0 then 0 else numberOfChannels)
      ensures forall c :: 0 <= c < |data| ==> data[c] == seq(|samples|, _ => None)
      ensures sampleCount == 0 && flags == map[]
    {
      var n := if numberOfSamples < 0 then 0 else numberOfSamples;
      var s: seq<int> := [];
      var i := 0;
      while i < n
        invariant 0 <= i <= n
        invariant s == Count(0, 0, i)
      {
        s := s + [i];
        i := i + 1;
      }
      var empty: seq<Value> := seq(|s|, _ => None);
      var nc := if numberOfChannels < 0 then 0 else numberOfChannels;
      var d: seq<seq<Value>> := [];
      var k := 0;
      while k < nc
        invariant 0 <= k <= nc
        invariant |d| == k && forall c :: 0 <= c < k ==> d[c] == empty
      {
        d := d + [empty];
        k := k + 1;
      }
      samples := s;
      data := d;
      sampleCount := 0;
      flags := map[];
    }

    /**
     * add_samples_to_data: the count after adding the whole scans of
     * values, (len(data) / num_chans); the samples list and each of the
     * first num_chans channel lists then hold the newest samples_to_display
     * of what they held and what was read.  Only the newest
     * samples_to_display scans read are appended, which shows the same.  With
     * no channel the division raises ZeroDivisionError, with a negative
     * length deque raises ValueError, and with fewer channel lists than
     * channels the lookup raises IndexError; the callback's chart data is
     * then discarded, which is None here and the data unchanged.
     */
    method AddSamplesToData(samplesToDisplay: int, numChans: nat, values: seq<Value>) returns (r: Option<int>)
      modifies this
      ensures r.None? <==> numChans == 0 || samplesToDisplay < 0 || |old(data)| < numChans
      ensures r.None? ==> unchanged(this)
      ensures sampleCount == old(sampleCount) && flags == old(flags)
      ensures r.Some? ==> r.value == old(sampleCount) + |values| / numChans
      ensures r.Some? ==> samples == Newest(old(samples) + Count(old(sampleCount), 0, |values| / numChans), samplesToDisplay)
      ensures r.Some? ==> |data| == |old(data)|
      ensures r.Some? ==> forall c :: 0 <= c < numChans ==>
        data[c] == Newest(old(data[c]) + Column(values, numChans, c, 0, |values| / numChans), samplesToDisplay)
      ensures r.Some? ==> forall c :: numChans <= c < |data| ==> data[c] == old(data[c])
    {
      if numChans == 0 || samplesToDisplay < 0 || |data| < numChans {
        return None;
      }
      var m: nat := samplesToDisplay;
      var n := |values| / numChans;
      assert n * numChans <= |values| by {
        assert |values| == n * numChans + |values| % numChans;
      }
      var current := sampleCount;
      samples, data := AppendScans(samples, data, m, numChans, values, n, current);
      r := Some(current + n);
    }
  }

  /**
   * The body of add_samples_to_data after its checks: deques of maxlen m
   * on the samples s0 and the first nc channel lists of d0, then the newest
   * m of the n scans read appended to them, scan by scan.
   */
  method AppendScans(s0: seq<int>, d0: seq<seq<Value>>, m: nat, nc: nat, values: seq<Value>, n: nat, current: int)
    returns (samples: seq<int>, data: seq<seq<Value>>)
    requires 0 < nc <= |d0| && n * nc <= |values|
    ensures samples == Newest(s0 + Count(current, 0, n), m)
    ensures |data| == |d0|
    ensures forall c :: 0 <= c < nc ==> data[c] == Newest(d0[c] + Column(values, nc, c, 0, n), m)
    ensures forall c :: nc <= c < |data| ==> data[c] == d0[c]
  {
    samples := Newest(s0, m);
    data := OpenDeques(d0, m, nc);
    var start := 0;
    if n > m {
      start := n - m;
    }
    assert Count(current, start, start) == [];
    assert forall c :: 0 <= c < nc ==> Column(values, nc, c, start, start) == [];
    assert s0 + [] == s0;
    assert forall c :: 0 <= c < nc ==> d0[c] + [] == d0[c];
    var sample := start;
    while sample < n
      invariant start <= sample <= n
      invariant Shown(s0, d0, samples, data, m, nc, values, n, current, start, sample)
    {
      ghost var ps, pd := samples, data;
      samples := Newest(samples + [current + sample], m);
      data := AppendScan(data, m, nc, values, n, sample);
      AddStep(s0, d0, ps, samples, pd, data, m, nc, values, n, current, start, sample);
      sample := sample + 1;
    }
    AddDone(s0, d0, samples, data, m, nc, values, n, current, start);
  }

  /** deque(chart_data['data'][chan], maxlen) for each of the first nc channels. */
  method OpenDeques(d: seq<seq<Value>>, m: nat, nc: nat) returns (data: seq<seq<Value>>)
    requires nc <= |d|
    ensures |data| == |d|
    ensures forall c :: 0 <= c < |d| ==> data[c] == if c < nc then Newest(d[c], m) else d[c]
  {
    data := d;
    var chan := 0;
    while chan < nc
      invariant chan <= nc && |data| == |d|
      invariant forall c :: 0 <= c < |d| ==> data[c] == if c < chan then Newest(d[c], m) else d[c]
    {
      data := data[chan := Newest(data[chan], m)];
      chan := chan + 1;
    }
  }

  /** The inner loop: channel chan of scan sample goes onto the end of channel chan's deque. */
  method AppendScan(d: seq<seq<Value>>, m: nat, nc: nat, values: seq<Value>, n: nat, sample: nat)
    returns (data: seq<seq<Value>>)
    requires 0 < nc <= |d| && sample < n && n * nc <= |values|
    ensures |data| == |d|
    ensures forall c :: 0 <= c < |d| ==>
      data[c] == if c < nc then Newest(d[c] + [At(values, nc, sample, c)], m) else d[c]
  {
    data := d;
    var chan := 0;
    while chan < nc
      invariant chan <= nc && |data| == |d|
      invariant forall c :: 0 <= c < |d| ==>
        data[c] == if c < chan then Newest(d[c] + [At(values, nc, sample, c)], m) else d[c]
    {
      ScanIndex(sample, n, nc, chan);
      assert values[sample * nc + chan] == At(values, nc, sample, chan);
      data := data[chan := Newest(data[chan] + [values[sample * nc + chan]], m)];
      chan := chan + 1;
    }
  }

  /**
   * The appending loop has added scans start .. sample - 1 to the deques
   * opened on the lists s0 and d0.
   */
  ghost predicate Shown(s0: seq<int>, d0: seq<seq<Value>>, samples: seq<int>, data: seq<seq<Value>>, m: nat,
                        nc: nat, values: seq<Value>, n: nat, current: int, start: nat, sample: nat)
  {
    0 < nc <= |d0| && n * nc <= |values| && start <= sample <= n && |data| == |d0|
    && samples == Newest(s0 + Count(current, start, sample), m)
    && (forall c :: 0 <= c < nc ==> data[c] == Newest(d0[c] + Column(values, nc, c, start, sample), m))
    && (forall c :: nc <= c < |data| ==> data[c] == d0[c])
  }

  lemma AddStep(s0: seq<int>, d0: seq<seq<Value>>, samples: seq<int>, samples': seq<int>,
                data: seq<seq<Value>>, data': seq<seq<Value>>, m: nat, nc: nat, values: seq<Value>,
                n: nat, current: int, start: nat, sample: nat)
    requires Shown(s0, d0, samples, data, m, nc, values, n, current, start, sample) && sample < n
    requires samples' == Newest(samples + [current + sample], m)
    requires |data'| == |data|
    requires forall c :: 0 <= c < |data| ==>
      data'[c] == if c < nc then Newest(data[c] + [At(values, nc, sample, c)], m) else data[c]
    ensures Shown(s0, d0, samples', data', m, nc, values, n, current, start, sample + 1)
  {
    SampleStep(s0, samples, m, current, start, sample);
    forall c | 0 <= c < nc
      ensures data'[c] == Newest(d0[c] + Column(values, nc, c, start, sample + 1), m)
    {
      ChannelStep(d0[c], data[c], m, values, nc, c, start, sample);
    }
  }

  /** The sample numbers of AddStep: the newest m after one more sample number. */
  lemma SampleStep(s0: seq<int>, samples: seq<int>, m: nat, current: int, start: nat, sample: nat)
    requires start <= sample && samples == Newest(s0 + Count(current, start, sample), m)
    ensures Newest(samples + [current + sample], m) == Newest(s0 + Count(current, start, sample + 1), m)
  {
    DequeAppend(s0 + Count(current, start, sample), m, current + sample);
    assert s0 + Count(current, start, sample + 1) == s0 + Count(current, start, sample) + [current + sample];
  }

  /** One channel of AddStep: the newest m after one more value of the channel. */
  lemma ChannelStep(d: seq<Value>, shown: seq<Value>, m: nat, values: seq<Value>, nc: nat, c: nat,
                    start: nat, sample: nat)
    requires start <= sample && shown == Newest(d + Column(values, nc, c, start, sample), m)
    ensures Newest(shown + [At(values, nc, sample, c)], m) == Newest(d + Column(values, nc, c, start, sample + 1), m)
  {
    DequeAppend(d + Column(values, nc, c, start, sample), m, At(values, nc, sample, c));
    assert d + Column(values, nc, c, start, sample + 1)
      == d + Column(values, nc, c, start, sample) + [At(values, nc, sample, c)];
  }

  /** Starting at start_sample instead of 0 leaves the same newest m shown. */
  lemma AddDone(s0: seq<int>, d0: seq<seq<Value>>, samples: seq<int>, data: seq<seq<Value>>, m: nat,
                nc: nat, values: seq<Value>, n: nat, current: int, start: nat)
    requires Shown(s0, d0, samples, data, m, nc, values, n, current, start, n)
    requires start == (if n > m then n - m else 0)
    ensures samples == Newest(s0 + Count(current, 0, n), m)
    ensures forall c :: 0 <= c < nc ==> data[c] == Newest(d0[c] + Column(values, nc, c, 0, n), m)
  {
    CountSplit(current, 0, start, n);
    if start > 0 {
      NewestHidden(s0, Count(current, 0, start), Count(current, start, n), m);
    }
    assert s0 + Count(current, 0, n) == s0 + (Count(current, 0, start) + Count(current, start, n));
    forall c | 0 <= c < nc
      ensures data[c] == Newest(d0[c] + Column(values, nc, c, 0, n), m)
    {
      ColumnSplit(values, nc, c, 0, start, n);
      if start > 0 {
        NewestHidden(d0[c], Column(values, nc, c, 0, start), Column(values, nc, c, start, n), m);
      }
      assert d0[c] + Column(values, nc, c, 0, n)
        == d0[c] + (Column(values, nc, c, 0, start) + Column(values, nc, c, start, n));
    }
  }
}
