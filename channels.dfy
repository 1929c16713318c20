/**
 * The channel part of the viewer page: the channels of a loaded table,
 * the default selection, the description of each selected channel, and
 * the figure with one line trace per selected channel.
 */
module Channels {

  const TIME_COLUMN := "Time"
  const DEFAULT_COUNT := 5
  const NO_DESCRIPTION := "No description available"
  const NO_SELECTION_HINT := "Select a channel above to see its meaning."
  const NO_CHANNELS_NOTICE := "No EEG channels selected."
  const X_AXIS_TITLE := "Time (s)"
  const Y_AXIS_TITLE := "Amplitude (μV)"
  const FIGURE_HEIGHT := 600
  const TITLE_HEADING := "EEG Signal – "

  /** `CHANNEL_INFO`: what each electrode label means. */
  const CHANNEL_INFO: map<string, string> := map[
    "Fp1" := "Frontopolar left (near forehead)",
    "Fp2" := "Frontopolar right (near forehead)",
    "AF3" := "Anterior frontal left",
    "AF4" := "Anterior frontal right",
    "AF7" := "Anterior frontal left (lateral)",
    "AF8" := "Anterior frontal right (lateral)",
    "Fz" := "Frontal midline",
    "F1" := "Frontal left mid",
    "F2" := "Frontal right mid",
    "F3" := "Frontal left",
    "F4" := "Frontal right",
    "FC1" := "Frontal-central left",
    "FC2" := "Frontal-central right",
    "Cz" := "Central midline (top of head)",
    "C3" := "Central left",
    "C4" := "Central right",
    "CP1" := "Central-parietal left",
    "CP2" := "Central-parietal right",
    "Pz" := "Parietal midline",
    "P3" := "Parietal left",
    "P4" := "Parietal right",
    "O1" := "Occipital left (visual area)",
    "O2" := "Occipital right (visual area)",
    "Oz" := "Occipital midline",
    "T7" := "Temporal left",
    "T8" := "Temporal right",
    "POz" := "Parieto-occipital midline"
  ]

  /**
   * A table as `pd.read_csv` gives it: the header's column names in file
   * order and, for each name, its values in row order.
   */
  datatype Table = Table(columns: seq<string>, data: map<string, seq<real>>)

  /** Every column of the header has its values. */
  ghost predicate WellFormed(t: Table) {
    forall c :: c in t.columns ==> c in t.data
  }

  /** `go.Scatter(x=..., y=..., mode="lines", name=...)`. */
  datatype Trace = Trace(x: seq<real>, y: seq<real>, mode: string, name: string)

  /** The figure after `update_layout`. */
  datatype Figure = Figure(title: string, xAxisTitle: string, yAxisTitle: string, height: int, traces: seq<Trace>)

  /** What the plot area shows: a figure, or the notice that nothing is selected. */
  datatype Plot = NothingSelected(notice: string) | Chart(figure: Figure)

  /** `eeg_channels`: every column but `Time`, in header order. */
  function EegChannels(columns: seq<string>): (r: seq<string>)
    ensures forall c :: c in r <==> c in columns && c != TIME_COLUMN
    ensures |r| <= |columns|
  {
    if columns == [] then []
    else (if columns[0] != TIME_COLUMN then [columns[0]] else []) + EegChannels(columns[1..])
  }

  /** Filtering commutes with concatenation, so it keeps the header's order. */
  lemma {:induction false} EegChannelsAppend(a: seq<string>, b: seq<string>)
    ensures EegChannels(a + b) == EegChannels(a) + EegChannels(b)
  {
    if a != [] {
      assert (a + b)[1..] == a[1..] + b;
      EegChannelsAppend(a[1..], b);
    } else {
      assert a + b == b;
    }
  }

  /** Columns other than `Time` are kept as they are. */
  lemma {:induction false} EegChannelsUnchanged(columns: seq<string>)
    requires TIME_COLUMN !in columns
    ensures EegChannels(columns) == columns
  {
    if columns != [] {
      EegChannelsUnchanged(columns[1..]);
      assert columns == [columns[0]] + columns[1..];
    }
  }

  /** The usual header `Time,<channel1>,<channel2>,...` gives the channels after `Time`. */
  lemma HeaderChannels(channels: seq<string>)
    requires TIME_COLUMN !in channels
    ensures EegChannels([TIME_COLUMN] + channels) == channels
  {
    EegChannelsAppend([TIME_COLUMN], channels);
    EegChannelsUnchanged(channels);
  }

  /** `eeg_channels[:5]`: the first five channels, or all of them when fewer. */
  function DefaultSelection(channels: seq<string>): (r: seq<string>)
    ensures |r| == if |channels| < DEFAULT_COUNT then |channels| else DEFAULT_COUNT
    ensures r <= channels
  {
    if |channels| < DEFAULT_COUNT then channels else channels[..DEFAULT_COUNT]
  }

  /** `CHANNEL_INFO.get(ch, "No description available")`. */
  function Describe(ch: string): (r: string)
    ensures ch in CHANNEL_INFO ==> r == CHANNEL_INFO[ch]
    ensures ch !in CHANNEL_INFO ==> r == NO_DESCRIPTION
  {
    if ch in CHANNEL_INFO then CHANNEL_INFO[ch] else NO_DESCRIPTION
  }

  /** No catalog entry reads like the fallback, so the fallback shows exactly the unknown channels. */
  lemma FallbackOnlyForUnknown(ch: string)
    ensures Describe(ch) == NO_DESCRIPTION <==> ch !in CHANNEL_INFO
  {
    assert NO_DESCRIPTION !in CHANNEL_INFO.Values;
  }

  lemma DescribeFp1()
    ensures Describe("Fp1") == "Frontopolar left (near forehead)"
  {
  }

  /** One line of the description panel: the channel in bold, then its description. */
  function DescriptionLine(ch: string): (r: string)
    ensures |r| == |ch| + 6 + |Describe(ch)|
    ensures r[..2] == "**" && r[2..2 + |ch|] == ch && r[2 + |ch|..6 + |ch|] == "**: "
    ensures r[6 + |ch|..] == Describe(ch)
  {
    "**" + ch + "**: " + Describe(ch)
  }

  /**
   * The description panel: one line per selected channel, in selection
   * order, or the hint when nothing is selected.
   */
  method DescribeSelection(selected: seq<string>) returns (lines: seq<string>)
    ensures selected == [] ==> lines == [NO_SELECTION_HINT]
    ensures selected != [] ==> |lines| == |selected|
    ensures selected != [] ==> forall i :: 0 <= i < |selected| ==> lines[i] == DescriptionLine(selected[i])
  {
    if selected == [] {
      return [NO_SELECTION_HINT];
    }
    lines := [];
    for i := 0 to |selected|
      invariant |lines| == i
      invariant forall k :: 0 <= k < i ==> lines[k] == DescriptionLine(selected[k])
    {
      lines := lines + [DescriptionLine(selected[i])];
    }
  }

  /** The trace of one channel: its values against `Time`, named by the channel. */
  function ChannelTrace(t: Table, ch: string): (r: Trace)
    requires TIME_COLUMN in t.data && ch in t.data
    ensures r.x == t.data[TIME_COLUMN] && r.y == t.data[ch]
    ensures r.mode == "lines" && r.name == ch
  {
    Trace(t.data[TIME_COLUMN], t.data[ch], "lines", ch)
  }

  /** The figure title: the fixed heading, then `subj_str`, `session_str` and `task_str` separated by `, `. */
  function Title(subjectStem: string, session: string, task: string): (r: string)
    ensures |r| == |TITLE_HEADING| + |subjectStem| + 2 + |session| + 2 + |task|
    ensures r[..|TITLE_HEADING|] == TITLE_HEADING
    ensures r[|TITLE_HEADING|..|TITLE_HEADING| + |subjectStem|] == subjectStem
    ensures r[|TITLE_HEADING| + |subjectStem|..|TITLE_HEADING| + |subjectStem| + 2] == ", "
    ensures r[|TITLE_HEADING| + |subjectStem| + 2..|TITLE_HEADING| + |subjectStem| + 2 + |session|] == session
    ensures r[|r| - |task| - 2..|r| - |task|] == ", "
    ensures r[|r| - |task|..] == task
  {
    TITLE_HEADING + subjectStem + ", " + session + ", " + task
  }

  /**
   * The plot: with channels selected, a figure holding one trace per
   * selected channel in selection order; with none, the notice instead of
   * a figure. Each selected channel is one the multiselect offered, and
   * `df["Time"]` must exist once one is selected.
   */
  method PlotChannels(t: Table, selected: seq<string>, subjectStem: string, session: string, task: string)
    returns (plot: Plot)
    requires WellFormed(t)
    requires forall ch :: ch in selected ==> ch in EegChannels(t.columns)
    requires selected != [] ==> TIME_COLUMN in t.data
    ensures plot.NothingSelected? <==> selected == []
    ensures plot.NothingSelected? ==> plot.notice == NO_CHANNELS_NOTICE
    ensures plot.Chart? ==> plot.figure.title == Title(subjectStem, session, task)
    ensures plot.Chart? ==> plot.figure.xAxisTitle == X_AXIS_TITLE && plot.figure.yAxisTitle == Y_AXIS_TITLE
    ensures plot.Chart? ==> plot.figure.height == FIGURE_HEIGHT
    ensures plot.Chart? ==> |plot.figure.traces| == |selected|
    ensures plot.Chart? ==> forall i :: 0 <= i < |selected| ==>
      selected[i] in t.data && plot.figure.traces[i] == ChannelTrace(t, selected[i])
  {
    if selected == [] {
      return NothingSelected(NO_CHANNELS_NOTICE);
    }
    var traces: seq<Trace> := [];
    for i := 0 to |selected|
      invariant |traces| == i
      invariant forall k :: 0 <= k < i ==> selected[k] in t.data && traces[k] == ChannelTrace(t, selected[k])
    {
      assert selected[i] in selected;
      traces := traces + [ChannelTrace(t, selected[i])];
    }
    plot := Chart(Figure(Title(subjectStem, session, task), X_AXIS_TITLE, Y_AXIS_TITLE, FIGURE_HEIGHT, traces));
  }

  /** Each trace carries the `Time` column as x and the channel's own column as y, in file order. */
  lemma TraceIsColumn(t: Table, ch: string)
    requires WellFormed(t) && TIME_COLUMN in t.data && ch in EegChannels(t.columns)
    ensures ch != TIME_COLUMN && ch in t.data
    ensures ChannelTrace(t, ch).x == t.data[TIME_COLUMN] && ChannelTrace(t, ch).y == t.data[ch]
    ensures ChannelTrace(t, ch).name == ch
  {
  }
}
