// The callbacks of the MCC 172 web-server example
// (examples/python/mcc172/web_server/web_server.py) that decide what the
// page does: the status a click on the start/stop button leads to and the
// board calls it makes, the timer interval, the sticky overrun flags, the
// chart update on each timer tick and the error text.  The board itself is
// outside the model: a click's calls are returned as an Action, and what a
// read returns is a parameter.

module Mcc172WebServer {
  import opened DaqHats
  import opened PyExampleUtils
  import opened StripChart
  import opened DataLogger

  const MCC172_CHANNEL_COUNT: nat := 2
  /** The highest rate the Configure click accepts. */
  const MAX_SAMPLE_RATE: real := 51200.0
  /** The timer interval that stands the timer still: one day, in ms. */
  const ONE_DAY: int := 1000 * 60 * 60 * 24
  /** The shortest timer interval while running, in ms. */
  const MIN_INTERVAL: int := 500

  /** The board calls a click makes. */
  datatype Action =
    | NoAction
      /** mcc172(address), a_in_clock_config_write(LOCAL, rate), then iepe_config_write(c, iepe[c]) for c = 0, 1. */
    | ConfigureBoard(address: nat, rate: real, iepe: seq<bool>)
      /** a_in_scan_start(channelMask, samplesPerChannel, CONTINUOUS). */
    | StartScan(channelMask: nat, samplesPerChannel: int)
      /** a_in_scan_stop() then a_in_scan_cleanup(). */
    | StopScan

  datatype Click = Click(state: AcqState, action: Action)

  /** The entries the Configure click checks: 2 to 1000 samples shown, a channel, and a rate it accepts. */
  predicate InputsValid(samplesToDisplay: real, channels: seq<nat>, rate: real)
  {
    1.0 < samplesToDisplay <= 1000.0 && |channels| > 0 && rate <= MAX_SAMPLE_RATE
  }

  /** The IEPE setting of each channel: on exactly when its box is ticked. */
  function IepeSettings(iepe: seq<nat>): (r: seq<bool>)
    ensures |r| == MCC172_CHANNEL_COUNT
    ensures forall c :: 0 <= c < |r| ==> (r[c] <==> c in iepe)
  {
    seq(MCC172_CHANNEL_COUNT, c => c in iepe)
  }

  /**
   * start_stop_click.  hat is the address in the selected board's
   * descriptor, None when nothing is selected.
   */
  function StartStopClick(nClicks: Option<int>, buttonLabel: string, hat: Option<nat>, rate: real,
                          samplesToDisplay: real, channels: seq<nat>, iepe: seq<nat>): (r: Click)
    ensures (nClicks.None? || nClicks.value <= 0) ==> r == Click(Idle, NoAction)
    ensures r.state == Error <==> nClicks.Some? && nClicks.value > 0 && buttonLabel == "Configure"
                                  && !InputsValid(samplesToDisplay, channels, rate)
    ensures r.state == Configured <==> nClicks.Some? && nClicks.value > 0 && buttonLabel == "Configure"
                                       && InputsValid(samplesToDisplay, channels, rate) && hat.Some?
    ensures r.state == Running <==> nClicks.Some? && nClicks.value > 0 && buttonLabel == "Start"
    ensures r.action.ConfigureBoard? <==> r.state == Configured
    ensures r.action.ConfigureBoard? ==> r.action == ConfigureBoard(hat.value, rate, IepeSettings(iepe))
    ensures r.action.StartScan? ==> r.action == StartScan(MaskOf(channels), Trunc(5.0 * rate))
    ensures r.action.StartScan? <==> r.state == Running
    ensures r.action.StopScan? <==> nClicks.Some? && nClicks.value > 0 && buttonLabel == "Stop"
  {
    if nClicks.None? || nClicks.value <= 0 then Click(Idle, NoAction)
    else if buttonLabel == "Configure" then
      if InputsValid(samplesToDisplay, channels, rate) then
        if hat.Some? then Click(Configured, ConfigureBoard(hat.value, rate, IepeSettings(iepe)))
        else Click(Idle, NoAction)
      else Click(Error, NoAction)
    else if buttonLabel == "Start" then
      // Buffer 5 seconds of data.
      Click(Running, StartScan(MaskOf(channels), Trunc(5.0 * rate)))
    else if buttonLabel == "Stop" then Click(Idle, StopScan)
    else Click(Idle, NoAction)
  }

  /**
   * A click on the button as labelled for a status leads only to the next
   * status of the cycle Configure, Start, Stop: from idle or error to
   * configured, idle or error; from configured to running; from running to
   * idle.  The scan is started only from configured and stopped only while
   * running.
   */
  lemma ClickFollowsLabel(n: int, state: AcqState, hat: Option<nat>, rate: real,
                          samplesToDisplay: real, channels: seq<nat>, iepe: seq<nat>)
    requires n > 0
    ensures var r := StartStopClick(Some(n), ButtonLabel(state), hat, rate, samplesToDisplay, channels, iepe);
      && (state == Configured ==> r.state == Running)
      && (state == Running ==> r == Click(Idle, StopScan))
      && ((state == Idle || state == Error) ==> r.state != Running && !r.action.StopScan?)
      && (r.action.StartScan? ==> state == Configured)
      && (r.action.StopScan? ==> state == Running)
  {
  }

  /**
   * update_timer_interval: while running and the chart shows as many
   * samples as were read (and some), refresh every
   * int(channels * samples / 2) ms, but no faster than every 500 ms;
   * otherwise the timer stands for a day.
   */
  function TimerInterval(state: AcqState, chartCount: int, infoCount: int, numChannels: nat,
                         samplesToDisplay: real): (ms: int)
    ensures ms == ONE_DAY || ms >= MIN_INTERVAL
    ensures !(state == Running && 0 < infoCount == chartCount) ==> ms == ONE_DAY
    ensures state == Running && 0 < infoCount == chartCount ==>
      ms >= MIN_INTERVAL && (ms > MIN_INTERVAL ==> ms == Trunc(numChannels as real * samplesToDisplay / 2.0))
  {
    var refresh := ONE_DAY;
    if state == Running && 0 < infoCount == chartCount then
      var r := Trunc(numChannels as real * samplesToDisplay / 2.0);
      if r < MIN_INTERVAL then MIN_INTERVAL else r
    else refresh
  }

  /**
   * With the entries a Configure click accepts, the running interval is
   * between 500 ms and one second, inside the 4-second maximum the
   * callback's documentation gives.
   */
  lemma TimerWithinDocumentedBounds(chartCount: int, numChannels: nat, samplesToDisplay: real)
    requires 0 < chartCount
    requires numChannels <= MCC172_CHANNEL_COUNT && 1.0 < samplesToDisplay <= 1000.0
    ensures MIN_INTERVAL <= TimerInterval(Running, chartCount, chartCount, numChannels, samplesToDisplay) <= 1000
  {
    var x := numChannels as real * samplesToDisplay / 2.0;
    assert x <= 1000.0 by {
      assert numChannels as real <= 2.0;
      assert numChannels as real * samplesToDisplay <= 2.0 * samplesToDisplay;
    }
    assert Trunc(x) <= 1000;
  }

  /**
   * The overrun flags: a flag that is absent or false takes the read's
   * value, one already true stays true.
   */
  function StickyFlag(flags: map<string, bool>, key: string, read: bool): (r: map<string, bool>)
    ensures key in r && (r[key] <==> Flagged(flags, key) || read)
    ensures forall k :: k != key ==> (k in r <==> k in flags) && (k in flags ==> r[k] == flags[k])
  {
    if !Flagged(flags, key) then flags[key := read] else flags
  }

  /** Whether any of the reads saw an overrun. */
  function AnyOverrun(seen: seq<bool>): bool
  {
    exists k :: 0 <= k < |seen| && seen[k]
  }

  /** The flags after a run of reads from a fresh chart. */
  function FlagAfter(flags: map<string, bool>, key: string, seen: seq<bool>): (r: map<string, bool>)
  {
    if |seen| == 0 then flags else StickyFlag(FlagAfter(flags, key, seen[..|seen| - 1]), key, seen[|seen| - 1])
  }

  /** After a run of reads on a fresh chart, a flag is set exactly when some read of the run reported it. */
  lemma {:induction false} FlagRecordsAnyOverrun(key: string, seen: seq<bool>)
    requires |seen| > 0
    ensures key in FlagAfter(map[], key, seen) && (FlagAfter(map[], key, seen)[key] <==> AnyOverrun(seen))
  {
    var init := seen[..|seen| - 1];
    if |init| > 0 {
      FlagRecordsAnyOverrun(key, init);
      assert AnyOverrun(seen) <==> AnyOverrun(init) || seen[|seen| - 1] by {
        if AnyOverrun(init) {
          var k :| 0 <= k < |init| && init[k];
          assert seen[k];
        }
      }
    } else {
      assert AnyOverrun(seen) <==> seen[0];
    }
  }

  /** What a_in_scan_read(ALL_AVAILABLE, RETURN_IMMEDIATELY) returns, as far as the page uses it. */
  datatype ReadResult = ReadResult(hardwareOverrun: bool, bufferOverrun: bool, data: seq<real>)

  /** The readings as chart values. */
  function Readings(data: seq<real>): (r: seq<Value>)
    ensures |r| == |data| && forall k :: 0 <= k < |data| ==> r[k] == Some(data[k])
  {
    seq(|data|, k requires 0 <= k < |data| => Some(data[k]))
  }

  /**
   * update_strip_chart_data: while running with a board open, the read's
   * overrun flags are stuck onto the chart's, its scans go onto the chart
   * and the count is advanced; once configured, a cleared chart for the
   * channels and samples shown.  A failing add (no channel, fewer channel
   * lists than channels, a negative count to show) raises, and the page
   * keeps its chart, as it does in every other status.
   */
  method UpdateStripChartData(chart: ChartData, state: AcqState, samplesToDisplayVal: real,
                              numChannels: nat, boardOpen: bool, read: ReadResult)
    returns (updated: ChartData)
    modifies chart
    ensures state == Configured ==>
      && fresh(updated) && unchanged(chart)
      && updated.samples == Count(0, 0, Max(Trunc(samplesToDisplayVal), 0))
      && |updated.data| == numChannels
      && (forall c :: 0 <= c < |updated.data| ==> updated.data[c] == seq(|updated.samples|, _ => None))
      && updated.sampleCount == 0 && updated.flags == map[]
    ensures state != Configured ==> updated == chart
    ensures var m := Trunc(samplesToDisplayVal);
      var added := state == Running && boardOpen && numChannels > 0 && m >= 0 && numChannels <= |old(chart.data)|;
      && (!added && state != Configured ==> unchanged(chart))
      && (added ==>
        && chart.flags == StickyFlag(StickyFlag(old(chart.flags), "hardware_overrun", read.hardwareOverrun),
                                     "buffer_overrun", read.bufferOverrun)
        && chart.sampleCount == old(chart.sampleCount) + |read.data| / numChannels
        && chart.samples == Newest(old(chart.samples) + Count(old(chart.sampleCount), 0, |read.data| / numChannels), m)
        && |chart.data| == |old(chart.data)|
        && (forall c :: 0 <= c < numChannels ==>
              chart.data[c] == Newest(old(chart.data[c]) + Column(Readings(read.data), numChannels, c, 0, |read.data| / numChannels), m))
        && (forall c :: numChannels <= c < |chart.data| ==> chart.data[c] == old(chart.data[c])))
  {
    updated := chart;
    var samplesToDisplay := Trunc(samplesToDisplayVal);
    if state == Running {
      if boardOpen {
        var flags := StickyFlag(chart.flags, "hardware_overrun", read.hardwareOverrun);
        flags := StickyFlag(flags, "buffer_overrun", read.bufferOverrun);
        var count := chart.AddSamplesToData(samplesToDisplay, numChannels, Readings(read.data));
        if count.Some? {
          chart.flags := flags;
          chart.sampleCount := count.value;
        }
      }
    } else if state == Configured {
      updated := new ChartData.Init(numChannels, samplesToDisplay);
    }
  }

  /**
   * update_error_message: while running, the overruns the chart records;
   * after a refused Configure click, each entry that is wrong.
   */
  function ErrorText(state: AcqState, flags: map<string, bool>, hatSelected: bool, rate: real,
                     samplesToDisplay: real, numChannels: nat): (text: string)
    ensures state != Running && state != Error ==> text == ""
    ensures state == Running ==> (text == "" <==> !Flagged(flags, "hardware_overrun") && !Flagged(flags, "buffer_overrun"))
  {
    if state == Running then
      (if Flagged(flags, "hardware_overrun") then "Hardware overrun occurred; " else "")
      + (if Flagged(flags, "buffer_overrun") then "Buffer overrun occurred; " else "")
    else if state == Error then
      (if !hatSelected then "Invalid HAT selection; " else "")
      + (if numChannels <= 0 then "Invalid channel selection (min 1); " else "")
      + (if rate > MAX_SAMPLE_RATE then "Invalid Sample Rate (max: 51200); " else "")
      + (if samplesToDisplay <= 1.0 || samplesToDisplay > 1000.0 then "Invalid Samples to display (range: 2-1000); " else "")
    else ""
  }

  /**
   * The error text names a problem exactly when a Configure click with
   * those entries would not configure the board: a refused click always
   * explains itself, and nothing is reported against entries it accepts.
   */
  lemma ErrorExplainsRefusal(n: int, hat: Option<nat>, rate: real, samplesToDisplay: real,
                             channels: seq<nat>, iepe: seq<nat>)
    requires n > 0
    ensures StartStopClick(Some(n), "Configure", hat, rate, samplesToDisplay, channels, iepe).state == Error ==>
      ErrorText(Error, map[], hat.Some?, rate, samplesToDisplay, |channels|) != ""
    ensures ErrorText(Error, map[], hat.Some?, rate, samplesToDisplay, |channels|) == "" <==>
      StartStopClick(Some(n), "Configure", hat, rate, samplesToDisplay, channels, iepe).state == Configured
  {
  }
}
