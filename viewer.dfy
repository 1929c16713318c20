/**
 * The viewer page run once, top to bottom: the subject catalog, the
 * dataset key of the choice, the local-then-remote resolution, the load,
 * the channel panel and plot, and the electrode markers. The directory
 * listing, the set of existing paths, the hub, `pd.read_csv` and the
 * widgets' selections are the page's inputs.
 */
module Viewer {
  import opened Results
  import opened Subjects
  import opened SessionKey
  import opened Resolver
  import opened Channels
  import opened Electrodes

  /**
   * The page up to the load: stopped by `st.warning` (no recordings),
   * stopped by `st.error` (the download failed), or a table read from a path.
   */
  datatype Session =
    | Warned(message: string)
    | Failed(message: string)
    | Loaded(filename: string, path: string, table: Table, downloads: seq<Request>)

  /**
   * Lines 46-87 of the page. With no `.csv` file it stops with the warning;
   * otherwise it resolves the key of the choice and either stops with the
   * download error, reading nothing, or reads the resolved path.
   */
  function OpenSession(listing: seq<string>, present: set<string>, hub: Request -> Download,
                       read: string -> Table, subject: string, condition: string, task: string): (s: Session)
    requires condition in COND_MAP && task in TASK_MAP
    ensures Catalog(listing).Err? <==> s == Warned(NO_FILES_WARNING)
    ensures s.Loaded? <==> Catalog(listing).Ok? && Resolve(present, Filename(subject, condition, task), hub).path.Ok?
    ensures Catalog(listing).Ok? && Resolve(present, Filename(subject, condition, task), hub).path.Err? ==>
      s == Failed(Resolve(present, Filename(subject, condition, task), hub).path.message)
    ensures s.Loaded? ==> s.filename == Filename(subject, condition, task)
    ensures s.Loaded? ==> Resolve(present, s.filename, hub).path == Ok(s.path)
    ensures s.Loaded? ==> s.downloads == Resolve(present, s.filename, hub).requests
    ensures s.Loaded? ==> s.table == read(s.path)
    ensures s.Loaded? && LocalPath(s.filename) in present ==> s.path == LocalPath(s.filename) && s.downloads == []
    ensures s.Loaded? && LocalPath(s.filename) !in present ==> s.downloads == [HubRequest(s.filename)]
  {
    match Catalog(listing)
    case Err(warning) => Warned(warning)
    case Ok(_) =>
      var filename := Filename(subject, condition, task);
      var r := Resolve(present, filename, hub);
      match r.path
      case Err(message) => Failed(message)
      case Ok(path) => Loaded(filename, path, read(path), r.requests)
  }

  /** Everything the page shows for a loaded session. */
  datatype View = View(
    channels: seq<string>,
    defaultChannels: seq<string>,
    descriptions: seq<string>,
    plot: Plot,
    markers: seq<Marker>)

  /**
   * Lines 88-156 of the page on a loaded table: the channels and their
   * default, the description panel, the plot and the electrode markers
   * for the selections made in the two multiselects. The markers take
   * their fill from the `#rrggbb` colour table.
   */
  method ShowSession(t: Table, subject: string, condition: string, task: string,
                     selectedChannels: seq<string>, selectedElectrodes: seq<string>) returns (v: View)
    requires condition in COND_MAP && task in TASK_MAP
    requires WellFormed(t)
    requires forall ch :: ch in selectedChannels ==> ch in EegChannels(t.columns)
    requires selectedChannels != [] ==> TIME_COLUMN in t.data
    requires forall e :: e in selectedElectrodes ==> e in ELECTRODE_OPTIONS
    ensures v.channels == EegChannels(t.columns)
    ensures v.defaultChannels == DefaultSelection(v.channels)
    ensures selectedChannels == [] <==> v.plot.NothingSelected?
    ensures v.plot.NothingSelected? ==> v.plot.notice == NO_CHANNELS_NOTICE
    ensures v.plot.Chart? ==> v.plot.figure.xAxisTitle == X_AXIS_TITLE && v.plot.figure.yAxisTitle == Y_AXIS_TITLE
    ensures v.plot.Chart? ==> v.plot.figure.height == FIGURE_HEIGHT
    ensures v.plot.Chart? ==> |v.plot.figure.traces| == |selectedChannels|
    ensures v.plot.Chart? ==> forall i :: 0 <= i < |selectedChannels| ==>
      selectedChannels[i] in t.data && v.plot.figure.traces[i] == ChannelTrace(t, selectedChannels[i])
    ensures v.plot.Chart? ==> v.plot.figure.title == Title(SubjectStem(subject), COND_MAP[condition], TASK_MAP[task])
    ensures selectedChannels == [] ==> v.descriptions == [NO_SELECTION_HINT]
    ensures selectedChannels != [] ==> |v.descriptions| == |selectedChannels|
    ensures selectedChannels != [] ==> forall i :: 0 <= i < |selectedChannels| ==>
      v.descriptions[i] == DescriptionLine(selectedChannels[i])
    ensures |v.markers| == |selectedElectrodes|
    ensures forall i :: 0 <= i < |selectedElectrodes| ==>
      selectedElectrodes[i] in ELECTRODE_COORDS &&
      selectedElectrodes[i] in ELECTRODE_HEX_COLORS &&
      v.markers[i] == MarkerOf(selectedElectrodes[i], ELECTRODE_HEX_COLORS) && IsHexRgba(v.markers[i].fill)
  {
    var channels := EegChannels(t.columns);
    var descriptions := DescribeSelection(selectedChannels);
    var plot := PlotChannels(t, selectedChannels, SubjectStem(subject), COND_MAP[condition], TASK_MAP[task]);
    OptionsMatchTables();
    assert forall e :: e in selectedElectrodes ==> e in ELECTRODE_COORDS && e in ELECTRODE_HEX_COLORS;
    var markers := Markers(selectedElectrodes, ELECTRODE_HEX_COLORS);
    forall i | 0 <= i < |selectedElectrodes|
      ensures IsHexRgba(markers[i].fill)
    {
      CorrectedFillsAccepted(selectedElectrodes[i]);
    }
    v := View(channels, DefaultSelection(channels), descriptions, plot, markers);
  }

  const EXAMPLE_FILE := "sub-01_ses-1_eyesopen.csv"
  const EXAMPLE_TABLE := Table([TIME_COLUMN, "Fp1", "Fz", "O1"],
    map[TIME_COLUMN := [0.0, 0.5], "Fp1" := [1.0, 2.0], "Fz" := [3.0, 4.0], "O1" := [5.0, 6.0]])

  /** The key of subject `01`, Normal Sleep, Eyes Open is the example file. */
  lemma ExampleFilename()
    ensures Filename("01", NORMAL_SLEEP, EYES_OPEN) == EXAMPLE_FILE
  {
  }

  /** A directory holding only the example file offers subject `01` alone. */
  lemma ExampleCatalog()
    ensures Catalog([EXAMPLE_FILE]) == Ok(["01"])
  {
    var f := EXAMPLE_FILE;
    ExampleFilename();
    SubjectRoundTrip("01", NORMAL_SLEEP, EYES_OPEN);
    assert SubjectOf(f) == "01";
    assert StringOrder.StrictlySorted(["01"]);
    assert forall id :: id in ["01"] <==> SubjectInListing([f], id);
    SubjectIdsIsSortedSet([f], ["01"]);
  }

  /**
   * With the example file present locally, the session opens it from the
   * data directory and attempts no download, whatever the hub would answer.
   */
  lemma ExampleSession(hub: Request -> Download, read: string -> Table)
    ensures OpenSession([EXAMPLE_FILE], {"data/eeg_csv/" + EXAMPLE_FILE}, hub, read, "01", NORMAL_SLEEP, EYES_OPEN)
      == Loaded(EXAMPLE_FILE, "data/eeg_csv/" + EXAMPLE_FILE, read("data/eeg_csv/" + EXAMPLE_FILE), [])
  {
    ExampleCatalog();
    ExampleFilename();
    LocalPathOfKey(EXAMPLE_FILE);
  }

  /** The columns `Time,Fp1,Fz,O1` give three channels, all selected by default. */
  lemma ExampleChannels()
    ensures EegChannels(EXAMPLE_TABLE.columns) == ["Fp1", "Fz", "O1"]
    ensures DefaultSelection(EegChannels(EXAMPLE_TABLE.columns)) == ["Fp1", "Fz", "O1"]
  {
    HeaderChannels(["Fp1", "Fz", "O1"]);
  }

  /** Selecting `Fp1` and `O1` in that session plots two traces, `Fp1` then `O1`, from their columns. */
  method ExamplePlot() returns (plot: Plot)
    ensures plot.Chart? && |plot.figure.traces| == 2
    ensures plot.figure.traces[0].name == "Fp1" && plot.figure.traces[0].y == [1.0, 2.0]
    ensures plot.figure.traces[1].name == "O1" && plot.figure.traces[1].y == [5.0, 6.0]
  {
    ExampleChannels();
    plot := PlotChannels(EXAMPLE_TABLE, ["Fp1", "O1"], SubjectStem("01"), "ses-1", "eyesopen");
  }
}
