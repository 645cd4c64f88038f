// The callbacks of the MCC 134 web-server example
// (examples/python/mcc134/web_server/web_server.py) that decide what the
// page does: the status a click on the start/stop button leads to and the
// board calls it makes, the timer interval, the temperatures read on each
// tick with their error flags, the chart update, the y-axis range of the
// chart and the error text.  The board is outside the model: a click's
// calls are returned as an Action, and the temperatures t_in_read returns
// for the active channels are a parameter.

module Mcc134WebServer {
  import opened DaqHats
  import opened StripChart
  import opened DataLogger
  import Mcc134

  const MCC134_CHANNEL_COUNT: nat := 4
  /** The timer interval that stands the timer still: one day, in ms. */
  const ONE_DAY: real := (1000 * 60 * 60 * 24) as real

  /** A channel checkbox's value. */
  type Channel = c: nat | c < MCC134_CHANNEL_COUNT

  /** The board calls a click makes. */
  datatype Action =
    | NoAction
      /** mcc134(address), then tc_type_write(c, t) for each pair, in order. */
    | OpenBoard(address: nat, tcWrites: seq<(Channel, nat)>)

  datatype Click = Click(state: AcqState, action: Action)

  /** The thermocouple type written to each active channel: the one its selector shows. */
  function TcWrites(channels: seq<Channel>, tcTypes: seq<nat>): (w: seq<(Channel, nat)>)
    requires |tcTypes| == MCC134_CHANNEL_COUNT
    ensures |w| == |channels| && forall k :: 0 <= k < |channels| ==> w[k] == (channels[k], tcTypes[channels[k]])
  {
    seq(|channels|, k requires 0 <= k < |channels| => (channels[k], tcTypes[channels[k]]))
  }

  /**
   * start_stop_click: any click is an error unless it configures (a board
   * selected and a channel active), starts or stops.  The board is opened
   * whenever one is selected, even when no channel is active and the
   * click is refused.  tcTypes are the four type selectors.
   */
  function StartStopClick(nClicks: Option<int>, buttonLabel: string, hat: Option<nat>,
                          channels: seq<Channel>, tcTypes: seq<nat>): (r: Click)
    requires |tcTypes| == MCC134_CHANNEL_COUNT
    ensures (nClicks.None? || nClicks.value <= 0) ==> r == Click(Idle, NoAction)
    ensures r.state == Configured <==> nClicks.Some? && nClicks.value > 0 && buttonLabel == "Configure"
                                       && hat.Some? && |channels| > 0
    ensures r.state == Running <==> nClicks.Some? && nClicks.value > 0 && buttonLabel == "Start"
    ensures r.state == Idle <==> nClicks.None? || nClicks.value <= 0 || buttonLabel == "Stop"
    ensures r.action.OpenBoard? <==> nClicks.Some? && nClicks.value > 0 && buttonLabel == "Configure" && hat.Some?
    ensures r.action.OpenBoard? ==> r.action == OpenBoard(hat.value, if |channels| > 0 then TcWrites(channels, tcTypes) else [])
  {
    assert |"Start"| == 5 && |"Stop"| == 4 && |"Configure"| == 9;
    if nClicks.None? || nClicks.value <= 0 then Click(Idle, NoAction)
    else if buttonLabel == "Configure" then
      if hat.Some? then
        if |channels| > 0 then Click(Configured, OpenBoard(hat.value, TcWrites(channels, tcTypes)))
        else Click(Error, OpenBoard(hat.value, []))
      else Click(Error, NoAction)
    else if buttonLabel == "Start" then Click(Running, NoAction)
    else if buttonLabel == "Stop" then Click(Idle, NoAction)
    else Click(Error, NoAction)
  }

  /**
   * A click on the button as labelled for a status follows the cycle
   * Configure, Start, Stop: from idle or error to configured or error,
   * from configured to running, from running to idle.
   */
  lemma ClickFollowsLabel(n: int, state: AcqState, hat: Option<nat>, channels: seq<Channel>, tcTypes: seq<nat>)
    requires n > 0 && |tcTypes| == MCC134_CHANNEL_COUNT
    ensures var r := StartStopClick(Some(n), ButtonLabel(state), hat, channels, tcTypes);
      && (state == Configured ==> r == Click(Running, NoAction))
      && (state == Running ==> r == Click(Idle, NoAction))
      && ((state == Idle || state == Error) ==> r.state == Configured || r.state == Error)
  {
  }

  /**
   * update_timer_interval: a reading every seconds_per_sample while
   * running, in ms; otherwise the timer stands for a day.
   */
  function TimerInterval(state: AcqState, secondsPerSample: real): (ms: real)
    ensures state == Running ==> ms / 1000.0 == secondsPerSample
    ensures state != Running ==> ms == ONE_DAY
  {
    if state == Running then secondsPerSample * 1000.0 else ONE_DAY
  }

  /** The chart value of a reading: none for the three special values t_in_read reports errors with. */
  function ChartValue(t: real): (v: Value)
    ensures v.None? <==> t == Mcc134.OPEN_TC_VALUE || t == Mcc134.OVERRANGE_TC_VALUE || t == Mcc134.COMMON_MODE_TC_VALUE
    ensures v.Some? ==> v.value == t
  {
    if t == Mcc134.OPEN_TC_VALUE then None
    else if t == Mcc134.OVERRANGE_TC_VALUE then None
    else if t == Mcc134.COMMON_MODE_TC_VALUE then None
    else Some(t)
  }

  const OPEN_TC_ERROR := "open_tc_error"
  const OVER_RANGE_ERROR := "over_range_error"
  const COMMON_MODE_RANGE_ERROR := "common_mode_range_error"

  /** Some reading of the tick is v. */
  predicate Reported(temps: seq<real>, v: real)
  {
    exists k :: 0 <= k < |temps| && temps[k] == v
  }

  /** The chart's flags after a tick: each error flag says whether some reading reported that error. */
  function TickFlags(flags: map<string, bool>, temps: seq<real>): map<string, bool>
  {
    flags[OPEN_TC_ERROR := Reported(temps, Mcc134.OPEN_TC_VALUE)]
         [OVER_RANGE_ERROR := Reported(temps, Mcc134.OVERRANGE_TC_VALUE)]
         [COMMON_MODE_RANGE_ERROR := Reported(temps, Mcc134.COMMON_MODE_TC_VALUE)]
  }

  /**
   * The reading loop of update_strip_chart_data: the error flags are
   * cleared, then each reading becomes a chart value and a special value
   * sets its flag.
   */
  method ReadTemperatures(flags: map<string, bool>, temps: seq<real>) returns (data: seq<Value>, flags': map<string, bool>)
    ensures |data| == |temps| && forall k :: 0 <= k < |temps| ==> data[k] == ChartValue(temps[k])
    ensures flags' == TickFlags(flags, temps)
  {
    var open, over, common := false, false, false;
    data := [];
    var k := 0;
    while k < |temps|
      invariant 0 <= k <= |temps| && |data| == k
      invariant forall j :: 0 <= j < k ==> data[j] == ChartValue(temps[j])
      invariant open == Reported(temps[..k], Mcc134.OPEN_TC_VALUE)
      invariant over == Reported(temps[..k], Mcc134.OVERRANGE_TC_VALUE)
      invariant common == Reported(temps[..k], Mcc134.COMMON_MODE_TC_VALUE)
    {
      var t := temps[k];
      ReportedStep(temps, k, Mcc134.OPEN_TC_VALUE);
      ReportedStep(temps, k, Mcc134.OVERRANGE_TC_VALUE);
      ReportedStep(temps, k, Mcc134.COMMON_MODE_TC_VALUE);
      if t == Mcc134.OPEN_TC_VALUE {
        open := true;
        data := data + [None];
      } else if t == Mcc134.OVERRANGE_TC_VALUE {
        over := true;
        data := data + [None];
      } else if t == Mcc134.COMMON_MODE_TC_VALUE {
        common := true;
        data := data + [None];
      } else {
        data := data + [Some(t)];
      }
      k := k + 1;
    }
    assert temps[..k] == temps;
    flags' := flags[OPEN_TC_ERROR := open][OVER_RANGE_ERROR := over][COMMON_MODE_RANGE_ERROR := common];
  }

  lemma ReportedStep(temps: seq<real>, k: nat, v: real)
    requires k < |temps|
    ensures Reported(temps[..k + 1], v) <==> Reported(temps[..k], v) || temps[k] == v
  {
    if Reported(temps[..k + 1], v) && temps[k] != v {
      var j :| 0 <= j < k + 1 && temps[..k + 1][j] == v;
      assert temps[..k][j] == v;
    }
    if Reported(temps[..k], v) {
      var j :| 0 <= j < k && temps[..k][j] == v;
      assert temps[..k + 1][j] == v;
    }
    if temps[k] == v {
      assert temps[..k + 1][k] == v;
    }
  }

  /**
   * update_strip_chart_data: while running with a board open, the tick's
   * readings go onto the chart as one scan with the tick's flags; once
   * configured, a cleared chart for the channels and samples shown.  A
   * failing add (no channel active, fewer channel lists than channels, a
   * negative count to show) raises, and the page keeps its chart, as it
   * does in every other status.  temps holds one reading per active channel.
   */
  method UpdateStripChartData(chart: ChartData, state: AcqState, samplesToDisplayVal: real,
                              boardOpen: bool, temps: seq<real>)
    returns (updated: ChartData)
    modifies chart
    ensures state == Configured ==>
      && fresh(updated) && unchanged(chart)
      && updated.samples == Count(0, 0, Max(Trunc(samplesToDisplayVal), 0))
      && |updated.data| == |temps|
      && (forall c :: 0 <= c < |updated.data| ==> updated.data[c] == seq(|updated.samples|, _ => None))
      && updated.sampleCount == 0 && updated.flags == map[]
    ensures state != Configured ==> updated == chart
    ensures var m := Trunc(samplesToDisplayVal);
      var added := state == Running && boardOpen && |temps| > 0 && m >= 0 && |temps| <= |old(chart.data)|;
      && (!added && state != Configured ==> unchanged(chart))
      && (added ==>
        && chart.flags == TickFlags(old(chart.flags), temps)
        && chart.sampleCount == old(chart.sampleCount) + 1
        && chart.samples == Newest(old(chart.samples) + [old(chart.sampleCount)], m)
        && |chart.data| == |old(chart.data)|
        && (forall c :: 0 <= c < |temps| ==> chart.data[c] == Newest(old(chart.data[c]) + [ChartValue(temps[c])], m))
        && (forall c :: |temps| <= c < |chart.data| ==> chart.data[c] == old(chart.data[c])))
  {
    updated := chart;
    var samplesToDisplay := Trunc(samplesToDisplayVal);
    var numChannels := |temps|;
    if state == Running {
      if boardOpen {
        var data, flags := ReadTemperatures(chart.flags, temps);
        var count := chart.AddSamplesToData(samplesToDisplay, numChannels, data);
        if count.Some? {
          chart.flags := flags;
          chart.sampleCount := count.value;
          OneScan(data, numChannels, old(chart.sampleCount));
        }
      }
    } else if state == Configured {
      updated := new ChartData.Init(numChannels, samplesToDisplay);
    }
  }

  /** One reading per channel is one scan: sample number count, and value c of the readings for channel c. */
  lemma OneScan(data: seq<Value>, nc: nat, count: int)
    requires 0 < nc == |data|
    ensures |data| / nc == 1 && Count(count, 0, 1) == [count]
    ensures forall c :: 0 <= c < nc ==> Column(data, nc, c, 0, 1) == [data[c]]
  {
    forall c | 0 <= c < nc
      ensures Column(data, nc, c, 0, 1) == [data[c]]
    {
      ColumnAt(data, nc, c, 0, 1, 0);
    }
  }

  /** All the values of the chart, channel after channel. */
  function Flat(rows: seq<seq<Value>>): seq<Value>
  {
    if |rows| == 0 then [] else Flat(rows[..|rows| - 1]) + rows[|rows| - 1]
  }

  /** Every value of every channel is in the flattened chart, and nothing else is. */
  lemma {:induction false} FlatMembers(rows: seq<seq<Value>>, v: Value)
    ensures v in Flat(rows) <==> exists c :: 0 <= c < |rows| && v in rows[c]
  {
    if |rows| > 0 {
      var init := rows[..|rows| - 1];
      FlatMembers(init, v);
      if v in Flat(rows) && v !in rows[|rows| - 1] {
        var c :| 0 <= c < |init| && v in init[c];
        assert rows[c] == init[c];
      }
      if exists c :: 0 <= c < |init| && v in rows[c] {
        var c :| 0 <= c < |init| && v in rows[c];
        assert init[c] == rows[c];
      }
    }
  }

  /** lo is None when s shows no value, and otherwise the least value s shows. */
  ghost predicate Lowest(lo: Option<real>, s: seq<Value>)
  {
    && (lo.None? <==> forall i :: 0 <= i < |s| ==> s[i].None?)
    && (lo.Some? ==> lo in s && forall i :: 0 <= i < |s| && s[i].Some? ==> lo.value <= s[i].value)
  }

  /** hi is None when s shows no value, and otherwise the greatest value s shows. */
  ghost predicate Highest(hi: Option<real>, s: seq<Value>)
  {
    && (hi.None? <==> forall i :: 0 <= i < |s| ==> s[i].None?)
    && (hi.Some? ==> hi in s && forall i :: 0 <= i < |s| && s[i].Some? ==> s[i].value <= hi.value)
  }

  /**
   * The y-axis range of update_strip_chart: five degrees below the lowest
   * and above the highest value shown, or 0 to 100 when nothing is shown.
   */
  method YAxisRange(data: seq<seq<Value>>) returns (yMin: real, yMax: real)
    ensures (forall i :: 0 <= i < |Flat(data)| ==> Flat(data)[i].None?) ==> yMin == 0.0 && yMax == 100.0
    ensures (exists i :: 0 <= i < |Flat(data)| && Flat(data)[i].Some?) ==>
      && Some(yMin + 5.0) in Flat(data) && Some(yMax - 5.0) in Flat(data)
      && forall i :: 0 <= i < |Flat(data)| && Flat(data)[i].Some? ==> yMin + 5.0 <= Flat(data)[i].value <= yMax - 5.0
  {
    var lo: Option<real> := None;
    var hi: Option<real> := None;
    var c := 0;
    while c < |data|
      invariant 0 <= c <= |data|
      invariant Lowest(lo, Flat(data[..c])) && Highest(hi, Flat(data[..c]))
    {
      assert data[..c + 1][..c] == data[..c];
      lo, hi := RangeOfChannel(data[c], lo, hi, Flat(data[..c]));
      c := c + 1;
    }
    assert data[..c] == data;
    yMax := if hi.Some? then hi.value + 5.0 else 100.0;
    yMin := if lo.Some? then lo.value - 5.0 else 0.0;
  }

  /** The inner loop of the range: the values of one channel after those seen before. */
  method RangeOfChannel(row: seq<Value>, lo: Option<real>, hi: Option<real>, ghost before: seq<Value>)
    returns (lo': Option<real>, hi': Option<real>)
    requires Lowest(lo, before) && Highest(hi, before)
    ensures Lowest(lo', before + row) && Highest(hi', before + row)
  {
    lo', hi' := lo, hi;
    var k := 0;
    assert before + row[..k] == before;
    while k < |row|
      invariant 0 <= k <= |row|
      invariant Lowest(lo', before + row[..k]) && Highest(hi', before + row[..k])
    {
      var v := row[k];
      assert before + row[..k + 1] == (before + row[..k]) + [v];
      LowestStep(lo', before + row[..k], v);
      HighestStep(hi', before + row[..k], v);
      if lo'.None? || (v.Some? && v.value < lo'.value) {
        lo' := v;
      }
      if hi'.None? || (v.Some? && v.value > hi'.value) {
        hi' := v;
      }
      k := k + 1;
    }
    assert row[..k] == row;
  }

  /** A None seen while nothing is known leaves nothing known; a value is kept when it is lower. */
  lemma LowestStep(lo: Option<real>, s: seq<Value>, v: Value)
    requires Lowest(lo, s)
    ensures Lowest(if lo.None? || (v.Some? && v.value < lo.value) then v else lo, s + [v])
  {
    var t := s + [v];
    assert t[|s|] == v;
    assert forall i :: 0 <= i < |s| ==> t[i] == s[i];
  }

  lemma HighestStep(hi: Option<real>, s: seq<Value>, v: Value)
    requires Highest(hi, s)
    ensures Highest(if hi.None? || (v.Some? && v.value > hi.value) then v else hi, s + [v])
  {
    var t := s + [v];
    assert t[|s|] == v;
    assert forall i :: 0 <= i < |s| ==> t[i] == s[i];
  }

  /**
   * update_error_message: while running, the errors the chart's flags
   * record; after a refused Configure click, each entry that is wrong.
   */
  function ErrorText(state: AcqState, flags: map<string, bool>, hatSelected: bool, numChannels: nat): (text: string)
    ensures state != Running && state != Error ==> text == ""
    ensures state == Running ==>
      (text == "" <==> !Flagged(flags, OPEN_TC_ERROR) && !Flagged(flags, OVER_RANGE_ERROR) && !Flagged(flags, COMMON_MODE_RANGE_ERROR))
  {
    if state == Running then
      (if Flagged(flags, OPEN_TC_ERROR) then "Open thermocouple; " else "")
      + (if Flagged(flags, OVER_RANGE_ERROR) then "Temp outside valid range; " else "")
      + (if Flagged(flags, COMMON_MODE_RANGE_ERROR) then "Temp outside common-mode range; " else "")
    else if state == Error then
      (if !hatSelected then "Invalid HAT selection; " else "")
      + (if numChannels <= 0 then "Invalid channel selection (min 1); " else "")
    else ""
  }

  /**
   * While running, the error text after a tick is empty exactly when every
   * reading of the tick reached the chart as a value.
   */
  lemma TickErrorsShown(flags: map<string, bool>, temps: seq<real>, hatSelected: bool, numChannels: nat)
    ensures ErrorText(Running, TickFlags(flags, temps), hatSelected, numChannels) == "" <==>
      forall k :: 0 <= k < |temps| ==> ChartValue(temps[k]).Some?
  {
    var f := TickFlags(flags, temps);
    assert OPEN_TC_ERROR != OVER_RANGE_ERROR && OPEN_TC_ERROR != COMMON_MODE_RANGE_ERROR
      && OVER_RANGE_ERROR != COMMON_MODE_RANGE_ERROR by {
      assert |OPEN_TC_ERROR| == 13 && |OVER_RANGE_ERROR| == 16 && |COMMON_MODE_RANGE_ERROR| == 23;
    }
    assert Flagged(f, OPEN_TC_ERROR) == Reported(temps, Mcc134.OPEN_TC_VALUE);
    assert Flagged(f, OVER_RANGE_ERROR) == Reported(temps, Mcc134.OVERRANGE_TC_VALUE);
  }

  /**
   * A Configure click is refused exactly when the error text it leads to
   * names a problem.
   */
  lemma ErrorExplainsRefusal(n: int, hat: Option<nat>, channels: seq<Channel>, tcTypes: seq<nat>)
    requires n > 0 && |tcTypes| == MCC134_CHANNEL_COUNT
    ensures StartStopClick(Some(n), "Configure", hat, channels, tcTypes).state == Error <==>
      ErrorText(Error, map[], hat.Some?, |channels|) != ""
  {
  }
}
