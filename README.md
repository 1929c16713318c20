# EEG Plotly viewer, modelled in Dafny

This project models the one page of the EEG + NHIS explorer that has
logic: the EEG viewer (`app/pages/eeg_plotly_viewer.py`). The page lists
the `.csv` recordings in `data/eeg_csv`, offers the subjects found in
their names, and builds the dataset key `sub-{subject}_{ses}_{task}.csv`
from the chosen subject, sleep condition and task. It reads that file
locally, or downloads it from the Hugging Face dataset
`aparker03/eeg-csv` when it is missing, and stops with an error when the
download fails. It then lists the table's channels (every column but
`Time`), preselects the first five, describes the selected ones from a
fixed catalog and plots one line per selected channel. Last, for each
selected electrode it computes a circular marker of radius 15 px on a
brain picture, and passes the electrode's colour name followed by `80`
as the marker's fill.

Modules, one per part of the page:

- `Results` (results.dfy): the `Ok` / `Err` outcome of a step that can
  stop the page.
- `Text` (text.dfy): the Python `str` operations the page calls:
  `endswith`, the first field of `split("_")` and `replace("sub-", "")`;
  and `startswith`, which the page does not call but `posixpath.join`
  (behind `os.path.join` on l.68) uses to test for an absolute name.
- `StringOrder` (string_order.dfy): Python's string order and
  `sorted(set(...))`, as strictly increasing insertion.
- `Subjects` (subjects.dfy): the `.csv` filter, the subject of a file
  name, the sorted subject list and the "no files" stop.
- `SessionKey` (session_key.dfy): the two lookup tables, the key builder
  and its inverse parser.
- `Resolver` (resolver.dfy): `os.path.join`, and the local-then-remote
  decision with the list of downloads it attempts.
- `Channels` (channels.dfy): the channel list, the default selection, the
  descriptions, and the trace loop.
- `Electrodes` (electrodes.dfy): the colour and coordinate tables and the
  marker loop.
- `Viewer` (viewer.dfy): the page run top to bottom, and a worked example
  with one local recording.

The file system, the hub and `pd.read_csv` are inputs of the page model:
the directory listing is a `seq<string>`, `os.path.exists` is membership
in a `set<string>` of paths, `hf_hub_download` is a function from the
request to `Downloaded(path)` or `DownloadFailed(cause)`, and reading a
CSV file is a function from a path to a `Table` (header plus columns).
The multiselect selections are parameters. Sample values are `real`;
nothing is computed on them.

A few facts about the code that a reader might expect otherwise:

- The fallback description is `"No description available"` (capital N).
- The electrode options are the keys of the colour table.
  `Electrodes.OptionsMatchTables` proves they equal the coordinate
  table's keys.
- A failed download gives one message built from the exception text. It
  does not tell "not found" apart from a transfer failure.
- The subject list comes from the local directory only. No remote
  catalog is consulted.

## Model

| member | source | states |
|---|---|---|
| Text.FirstField | app/pages/eeg_plotly_viewer.py:53 | `split("_")[0]`: the longest prefix holding no `_`; when shorter than the name, the next character is `_` |
| Text.FirstFieldOfJoin | app/pages/eeg_plotly_viewer.py:53 | the first field of `a + "_" + b` is `a` whenever `a` holds no `_` |
| Text.RemoveAll | app/pages/eeg_plotly_viewer.py:53 | `replace("sub-", "")` never lengthens the name and adds no character that was not there |
| Text.RemoveAllIdentity | app/pages/eeg_plotly_viewer.py:53 | the removal leaves a name unchanged if and only if `sub-` does not occur in it |
| Text.RemoveAllLeading | app/pages/eeg_plotly_viewer.py:53 | a leading `sub-` is dropped and the scan goes on after it |
| Text.RemovalCanJoinPattern | app/pages/eeg_plotly_viewer.py:53 | the removal is one pass: `susub-b-` becomes `sub-`, which still holds `sub-` |
| StringOrder.LessTotal | app/pages/eeg_plotly_viewer.py:53 | Python's string order is total: two different strings are ordered one way or the other |
| StringOrder.LessTransitive | app/pages/eeg_plotly_viewer.py:53 | Python's string order is transitive |
| StringOrder.LessAsymmetric | app/pages/eeg_plotly_viewer.py:53 | Python's string order is asymmetric |
| StringOrder.StrictlySortedDistinct | app/pages/eeg_plotly_viewer.py:53 | a strictly increasing list holds no value twice |
| StringOrder.Insert | app/pages/eeg_plotly_viewer.py:53 | inserting into a strictly increasing list keeps it strictly increasing and adds exactly the new value |
| StringOrder.SortedSet | app/pages/eeg_plotly_viewer.py:53 | `sorted(set(xs))`: strictly increasing, holding exactly the elements of `xs` |
| StringOrder.SortedIsUnique | app/pages/eeg_plotly_viewer.py:53 | two strictly increasing lists with the same elements are equal |
| Subjects.CsvFiles | app/pages/eeg_plotly_viewer.py:46 | a name is kept if and only if it is in the listing and ends in `.csv` |
| Subjects.SubjectOf | app/pages/eeg_plotly_viewer.py:53 | the subject of a file name never holds `_` |
| Subjects.SubjectsOf | app/pages/eeg_plotly_viewer.py:53 | one subject per file, in file order |
| Subjects.SubjectIds | app/pages/eeg_plotly_viewer.py:53 | the subject list is strictly sorted and has no repeats; an id is in it if and only if it is the subject of some `.csv` file of the listing |
| Subjects.SubjectIdsIsSortedSet | app/pages/eeg_plotly_viewer.py:53 | any strictly sorted list holding exactly those subjects is the subject list |
| Subjects.Catalog | app/pages/eeg_plotly_viewer.py:46-53 | when the data directory exists, the page stops with the warning if and only if no name in its listing ends in `.csv`; otherwise the subject list it offers is not empty |
| Subjects.CatalogFreeOfSeparator | app/pages/eeg_plotly_viewer.py:53 | no offered subject holds `_` |
| Subjects.NonCsvIgnored | app/pages/eeg_plotly_viewer.py:46 | adding a name that does not end in `.csv` leaves the subject list unchanged |
| SessionKey.TablesMatchOptions | app/pages/eeg_plotly_viewer.py:57-62 | the tables are total on the radio options, and their codes are exactly `ses-1`/`ses-2` and `eyesopen`/`eyesclosed` |
| SessionKey.TablesInjective | app/pages/eeg_plotly_viewer.py:61-62 | different options give different codes |
| SessionKey.SubjectStem | app/pages/eeg_plotly_viewer.py:64 | `subj_str` is `sub-` followed by exactly the chosen subject |
| SessionKey.Filename | app/pages/eeg_plotly_viewer.py:64-67 | the key starts with `sub-` and the subject, ends in `.csv`, and in between holds one of exactly four session/task codes |
| SessionKey.SplitTaskOf | app/pages/eeg_plotly_viewer.py:62 | the task code at the end of a name is read back as its task |
| SessionKey.SplitConditionOf | app/pages/eeg_plotly_viewer.py:61 | the session code at the end of a name is read back as its condition |
| SessionKey.SplitTaskSound | app/pages/eeg_plotly_viewer.py:62 | a task read from a name is a table option whose code ends the name |
| SessionKey.SplitConditionSound | app/pages/eeg_plotly_viewer.py:61 | a condition read from a name is a table option whose code ends the name |
| SessionKey.FilenameRoundTrip | app/pages/eeg_plotly_viewer.py:61-67 | parsing the key gives back the subject, condition and task that built it, for every subject |
| SessionKey.ParseFilenameSound | app/pages/eeg_plotly_viewer.py:61-67 | every name the parser accepts is the key of the choice it returns |
| SessionKey.FilenameInjective | app/pages/eeg_plotly_viewer.py:61-67 | distinct (subject, condition, task) choices give distinct keys |
| SessionKey.SubjectOfKey | app/pages/eeg_plotly_viewer.py:53-67 | for a subject without `_`, the catalog reads its key back as the subject with every `sub-` removed |
| SessionKey.SubjectRoundTrip | app/pages/eeg_plotly_viewer.py:53-67 | the catalog reads the chosen subject back from its key when the subject holds neither `_` nor `sub-` |
| SessionKey.SubjectRoundTripNeedsNoPrefix | app/pages/eeg_plotly_viewer.py:53-67 | without that condition it fails: subject `sub-7` reads back as `7` |
| Resolver.JoinPath | app/pages/eeg_plotly_viewer.py:68 | `os.path.join`: the result ends with the name; an absolute name replaces the directory; a relative name follows a non-empty directory not ending in `/` after exactly one `/` |
| Resolver.LocalPath | app/pages/eeg_plotly_viewer.py:68 | `file_path`: a relative key is looked for as `data/eeg_csv/` followed by the key; an absolute one as it is |
| Resolver.HubRequest | app/pages/eeg_plotly_viewer.py:75-81 | the download asks for this key from `aparker03/eeg-csv` as a dataset, into `data/eeg_csv`, with symlinks off |
| Resolver.FailureMessage | app/pages/eeg_plotly_viewer.py:84 | the error starts with "Failed to retrieve `", then the key, then "` from Hugging Face: ", and ends with the exception's text |
| Resolver.LocalPathOfKey | app/pages/eeg_plotly_viewer.py:68 | a key's local path is `data/eeg_csv/` followed by the key |
| Resolver.Resolve | app/pages/eeg_plotly_viewer.py:72-85 | an existing local file is used with no download. Otherwise exactly one download is attempted, for this key from `aparker03/eeg-csv`, stored as a copy (no symlink) in the data directory. The page fails if and only if that download fails, with a message naming the key and the cause; on success it uses the downloaded path |
| Resolver.ResolveAgainIsLocal | app/pages/eeg_plotly_viewer.py:72-82 | once a download has stored the key, resolving it again attempts no download and uses the local file |
| Channels.EegChannels | app/pages/eeg_plotly_viewer.py:88-89 | a column is a channel if and only if it is a column other than `Time` |
| Channels.EegChannelsAppend | app/pages/eeg_plotly_viewer.py:89 | the filter commutes with concatenation, so the channels keep the header's order |
| Channels.EegChannelsUnchanged | app/pages/eeg_plotly_viewer.py:89 | a header without `Time` is kept whole |
| Channels.HeaderChannels | app/pages/eeg_plotly_viewer.py:87-89 | the header `Time,<ch1>,<ch2>,...` gives exactly `<ch1>,<ch2>,...` |
| Channels.DefaultSelection | app/pages/eeg_plotly_viewer.py:92 | the default is the prefix of length `min(5, number of channels)` |
| Channels.Describe | app/pages/eeg_plotly_viewer.py:98 | the catalog entry of a known channel, the fallback text for any other |
| Channels.FallbackOnlyForUnknown | app/pages/eeg_plotly_viewer.py:98 | the fallback text appears if and only if the channel is not in the catalog |
| Channels.DescribeFp1 | app/pages/eeg_plotly_viewer.py:11 | `Fp1` is described as "Frontopolar left (near forehead)" |
| Channels.DescriptionLine | app/pages/eeg_plotly_viewer.py:99 | a description line is `**`, the channel, `**: `, then the channel's description, and nothing else |
| Channels.DescribeSelection | app/pages/eeg_plotly_viewer.py:95-101 | one `**ch**: description` line per selected channel, in selection order, or the hint alone when nothing is selected |
| Channels.ChannelTrace | app/pages/eeg_plotly_viewer.py:106 | a channel's trace is a line trace with x the `Time` column, y the channel's column, named after the channel |
| Channels.Title | app/pages/eeg_plotly_viewer.py:109 | the title is the heading "EEG Signal – " followed by the subject stem, the session code and the task code, separated by `, ` |
| Channels.PlotChannels | app/pages/eeg_plotly_viewer.py:103-116 | no channel selected gives the notice and no figure. Otherwise the figure has the page's title and axis titles and one trace per selected channel, in selection order |
| Channels.TraceIsColumn | app/pages/eeg_plotly_viewer.py:106 | a channel's trace plots its own column against `Time` and is named after the channel |
| Electrodes.OptionsMatchTables | app/pages/eeg_plotly_viewer.py:125-151 | the offered electrodes are distinct and are exactly the keys of the colour table, of the coordinate table and of the hex table, so no lookup can fail |
| Electrodes.BoundingBox | app/pages/eeg_plotly_viewer.py:155-156 | the box is 30 px square and centred on the electrode |
| Electrodes.Fill | app/pages/eeg_plotly_viewer.py:156 | the fill is the colour followed by exactly `80` |
| Electrodes.MarkerOf | app/pages/eeg_plotly_viewer.py:155-156 | an electrode's marker has the box around its position, which lies inside the picture, and its colour followed by `80` as fill |
| Electrodes.Markers | app/pages/eeg_plotly_viewer.py:153-156 | one marker per selected electrode, in selection order, with that electrode's box and fill. An empty selection gives no markers |
| Electrodes.MarkersApart | app/pages/eeg_plotly_viewer.py:144-156 | the markers of two different electrodes never overlap: their boxes are apart horizontally or vertically |
| Electrodes.NameWithAlphaRejected | app/pages/eeg_plotly_viewer.py:156 | a colour name followed by `80` is not a colour string Pillow can read |
| Electrodes.AsWrittenFillsRejected | app/pages/eeg_plotly_viewer.py:156 | as written, the fill of every electrode (`red80`, `blue80`, ...) is refused as a colour |
| Electrodes.HexWithAlphaAccepted | app/pages/eeg_plotly_viewer.py:156 | a `#rrggbb` colour followed by `80` is a `#rrggbbaa` colour |
| Electrodes.CorrectedFillsAccepted | app/pages/eeg_plotly_viewer.py:156 | with the colours written as `#rrggbb`, every fill is a `#rrggbb80` colour with alpha 0x80 |
| Viewer.OpenSession | app/pages/eeg_plotly_viewer.py:44-87 | the page stops with the `st.warning` if and only if there is no `.csv` file. Otherwise it stops with the `st.error` carrying the resolver's message exactly when resolving the chosen key fails, and else reads the path the resolver gives, with the resolver's downloads. A local file means no download; otherwise exactly one is attempted |
| Viewer.ShowSession | app/pages/eeg_plotly_viewer.py:88-156 | the channels and the default follow the header. There is one description line per selected channel, or the hint alone. The figure carries the session's title and one trace per selected channel, in selection order, each being that channel's `ChannelTrace` (x from `Time`, y from the channel's column). There is one marker per selected electrode, in selection order, each being `MarkerOf` the electrode with the `#rrggbb` colour table, so its fill is that colour at alpha `80`, a `#rrggbbaa` string |
| Viewer.ExampleFilename | app/pages/eeg_plotly_viewer.py:61-67 | subject `01`, Normal Sleep, Eyes Open is `sub-01_ses-1_eyesopen.csv` |
| Viewer.ExampleCatalog | app/pages/eeg_plotly_viewer.py:46-53 | a directory holding only that file offers exactly subject `01` |
| Viewer.ExampleSession | app/pages/eeg_plotly_viewer.py:61-87 | with that file present, the session loads it from `data/eeg_csv/` with no download |
| Viewer.ExampleChannels | app/pages/eeg_plotly_viewer.py:88-92 | columns `Time,Fp1,Fz,O1` give channels `Fp1,Fz,O1`, all three preselected |
| Viewer.ExamplePlot | app/pages/eeg_plotly_viewer.py:103-106 | selecting `Fp1` and `O1` plots two traces, `Fp1` then `O1`, each with its own column |

## Left out

- Streamlit widgets, the spinner, `st.stop` and the page layout are not modelled. A stop is the `Warned` or `Failed` session, or an `Err` result; selections are parameters.
- Plotly rendering is not modelled. The figure is modelled up to the title, the axis titles, the height and the traces.
- The network call inside `hf_hub_download` is not modelled. Only its outcome is, as an input function from the request to `Downloaded(path)` or `DownloadFailed(cause)`. The exception's own text is the `cause` string.
- Resolver.ResolveAgainIsLocal: that a successful `hf_hub_download(local_dir=...)` stores the file at the key's local path is behaviour of the hub library. The function `Stored` states it as an assumption; it is not derived.
- Concurrent page runs downloading the same key are not modelled (single run only).
- CSV parsing by `pandas` is not modelled. A table is a header plus a column per name, and pandas' renaming of duplicate column names is left out. `PlotChannels` requires the `Time` column once a channel is selected, because `df["Time"]` raises a `KeyError` the page does not handle.
- Floating-point sample values are carried as `real` and never computed on.
- Pillow is not modelled: opening the brain picture from its fixed absolute path, the overlay, rasterising the ellipses and alpha compositing. The model stops at the list of (box, fill) markers. Pillow's colour grammar is approximated by `MayBeColourSpec`, a necessary condition for a colour string to be read.
- `app/main.py` is page layout and narrative text; `page_exists` and `link_or_hint` only test whether page files exist and are not modelled.
- Characters are compared by code point, as Python does; no Unicode normalisation. File names from `os.listdir` may hold lone surrogates (Python's `surrogateescape` for undecodable bytes), which a Dafny `char` cannot hold; such names are not modelled.
- The file system is not modelled, only what the page asks of it: the directory listing is an input `seq<string>`, `os.path.exists` is membership in an input set of paths, and `pd.read_csv` is an input function from a path to a `Table`.
- Subjects.Catalog: a missing `data/eeg_csv` directory makes `os.listdir` (l.46) raise `FileNotFoundError`, so the page crashes before the warning of l.48-50. A listing cannot express a missing directory, so the model's "warning if and only if no name ends in `.csv`" holds only when the directory exists.

## Findings

| source | as written | input that shows it | evidently intended | confidence | as-written member | corrected member |
|---|---|---|---|---|---|---|
| app/pages/eeg_plotly_viewer.py:156 | the fill is a colour name with `80` appended (`"red" + "80"`) | selecting electrode `FP1` passes `fill="red80"` to `draw.ellipse`. That is not a colour name, not a `#` hex form and not a functional form, so Pillow's colour parser refuses it | a half-transparent fill: the electrode's colour at alpha 0x80, e.g. `#ff000080` | medium, not executed | Electrodes.AsWrittenFillsRejected | Electrodes.CorrectedFillsAccepted |

The page model (`Viewer.ShowSession`) draws its markers with the corrected
`#rrggbb` table, `Electrodes.ELECTRODE_HEX_COLORS`. `Electrodes.Markers`
itself is the loop as written, with the colour table as a parameter.
