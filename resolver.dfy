/**
 * Where the page reads a recording from: the file in the local data
 * directory when it exists, otherwise the file downloaded from the
 * Hugging Face dataset repository, otherwise nowhere (the page shows an
 * error and stops). The file system and the hub are oracles: the set of
 * paths that exist, and the outcome the hub gives for a request.
 */
module Resolver {
  import opened Text
  import Subjects
  import opened Results

  const HF_REPO := "aparker03/eeg-csv"
  const REPO_TYPE := "dataset"
  const FAILURE_PREFIX := "Failed to retrieve `"
  const FAILURE_MIDDLE := "` from Hugging Face: "

  /**
   * What `hf_hub_download` is asked for. `useSymlinks` is its
   * `local_dir_use_symlinks` argument: whether the file in `localDir` may
   * be a link into the hub's cache instead of a copy.
   */
  datatype Request = Request(repoId: string, filename: string, repoType: string, localDir: string, useSymlinks: bool)

  /** What `hf_hub_download` gives back: a path, or the exception's text. */
  datatype Download = Downloaded(path: string) | DownloadFailed(cause: string)

  /** The path the page goes on to load, and the downloads it attempted. */
  datatype Resolution = Resolution(path: Result<string>, requests: seq<Request>)

  /** `os.path.join(dir, name)` on POSIX. */
  function JoinPath(dir: string, name: string): (r: string)
    ensures EndsWith(r, name)
    ensures StartsWith(name, "/") ==> r == name
    ensures !StartsWith(name, "/") && dir != [] && !EndsWith(dir, "/") ==> r == dir + "/" + name
    ensures !StartsWith(name, "/") && (dir == [] || EndsWith(dir, "/")) ==> r == dir + name
  {
    if StartsWith(name, "/") then name
    else
      var r := if dir == [] || EndsWith(dir, "/") then dir + name else dir + "/" + name;
      EndsWithJoin(if dir == [] || EndsWith(dir, "/") then dir else dir + "/", name);
      r
  }

  /**
   * `file_path`: where the key is looked for locally. A relative name is
   * looked for inside the data directory; an absolute one is taken as it is.
   */
  function LocalPath(filename: string): (r: string)
    ensures !StartsWith(filename, "/") ==> r == Subjects.DATA_DIR + "/" + filename
    ensures StartsWith(filename, "/") ==> r == filename
  {
    EndsWithLast(Subjects.DATA_DIR, "/");
    JoinPath(Subjects.DATA_DIR, filename)
  }

  /**
   * The one download the page may attempt for `filename`: that file of the
   * dataset repository, stored as a real copy in the data directory.
   */
  function HubRequest(filename: string): (r: Request)
    ensures r.filename == filename
    ensures r.repoId == HF_REPO && r.repoType == REPO_TYPE
    ensures r.localDir == Subjects.DATA_DIR && !r.useSymlinks
  {
    Request(HF_REPO, filename, REPO_TYPE, Subjects.DATA_DIR, false)
  }

  /**
   * The error shown when the download fails: it names the file between
   * backquotes and ends with the exception's text.
   */
  function FailureMessage(filename: string, cause: string): (r: string)
    ensures |r| == |FAILURE_PREFIX| + |filename| + |FAILURE_MIDDLE| + |cause|
    ensures StartsWith(r, FAILURE_PREFIX)
    ensures r[|FAILURE_PREFIX|..|FAILURE_PREFIX| + |filename|] == filename
    ensures r[|FAILURE_PREFIX| + |filename|..|r| - |cause|] == FAILURE_MIDDLE
    ensures EndsWith(r, cause)
  {
    var r := FAILURE_PREFIX + filename + FAILURE_MIDDLE + cause;
    assert r[..|FAILURE_PREFIX|] == FAILURE_PREFIX;
    EndsWithJoin(FAILURE_PREFIX + filename + FAILURE_MIDDLE, cause);
    r
  }

  /**
   * The local-then-remote decision. A local file is used as it is, with no
   * download; otherwise exactly one download is attempted, and its failure
   * stops the page with a message naming the file and the cause.
   */
  function Resolve(present: set<string>, filename: string, hub: Request -> Download): (r: Resolution)
    ensures LocalPath(filename) in present ==> r.requests == [] && r.path == Ok(LocalPath(filename))
    ensures LocalPath(filename) !in present ==> r.requests == [HubRequest(filename)]
    ensures r.path.Err? <==> LocalPath(filename) !in present && hub(HubRequest(filename)).DownloadFailed?
    ensures r.path.Ok? && LocalPath(filename) !in present ==> r.path.value == hub(HubRequest(filename)).path
    ensures r.path.Err? ==> r.path.message == FailureMessage(filename, hub(HubRequest(filename)).cause)
  {
    var local := LocalPath(filename);
    if local in present then Resolution(Ok(local), [])
    else
      var request := HubRequest(filename);
      match hub(request)
      case Downloaded(path) => Resolution(Ok(path), [request])
      case DownloadFailed(cause) => Resolution(Err(FailureMessage(filename, cause)), [request])
  }

  /**
   * The data directory after a resolution: `hf_hub_download` with
   * `local_dir` stores a successful download at the local path.
   */
  function Stored(present: set<string>, filename: string, r: Resolution): set<string> {
    if r.path.Ok? then present + {LocalPath(filename)} else present
  }

  /**
   * Resolving a key again after it once succeeded finds the local copy and
   * attempts no download, whatever the hub would answer now.
   */
  lemma ResolveAgainIsLocal(present: set<string>, filename: string, hub: Request -> Download, later: Request -> Download)
    requires Resolve(present, filename, hub).path.Ok?
    ensures var again := Resolve(Stored(present, filename, Resolve(present, filename, hub)), filename, later);
      again.requests == [] && again.path == Ok(LocalPath(filename))
  {
  }

  /** Data-directory paths of dataset keys: `data/eeg_csv/` and the key. */
  lemma LocalPathOfKey(filename: string)
    requires StartsWith(filename, "sub-")
    ensures LocalPath(filename) == "data/eeg_csv/" + filename
  {
    assert !EndsWith(Subjects.DATA_DIR, "/") by {
      EndsWithLast(Subjects.DATA_DIR, "/");
    }
    assert !StartsWith(filename, "/") by {
      assert filename[..4][0] == 's';
    }
  }
}
