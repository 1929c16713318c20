/**
 * The subject catalog of the viewer page: the `.csv` files of the data
 * directory, and from each the subject identifier it belongs to, listed
 * once each in sorted order.
 */
module Subjects {
  import opened Text
  import opened StringOrder
  import opened Results

  const DATA_DIR := "data/eeg_csv"
  const CSV_SUFFIX := ".csv"
  const SUBJECT_PREFIX := "sub-"
  const NO_FILES_WARNING := "No EEG CSV files found in `data/eeg_csv/`."

  /** The names in a directory listing that end in `.csv`, in listing order. */
  function CsvFiles(listing: seq<string>): (r: seq<string>)
    ensures forall f :: f in r <==> f in listing && EndsWith(f, CSV_SUFFIX)
    ensures |r| <= |listing|
  {
    if listing == [] then []
    else (if EndsWith(listing[0], CSV_SUFFIX) then [listing[0]] else []) + CsvFiles(listing[1..])
  }

  /**
   * The subject a file name belongs to: its first `_`-separated field with
   * every `sub-` removed by `str.replace`.
   */
  function SubjectOf(filename: string): (r: string)
    ensures '_' !in r
  {
    RemoveAll(FirstField(filename, '_'), SUBJECT_PREFIX)
  }

  /** `id` is the subject of some `.csv` file of the listing. */
  ghost predicate SubjectInListing(listing: seq<string>, id: string) {
    exists f :: f in listing && EndsWith(f, CSV_SUFFIX) && SubjectOf(f) == id
  }

  /** The subject of each file, in file order. */
  function SubjectsOf(files: seq<string>): (r: seq<string>)
    ensures |r| == |files|
    ensures forall i :: 0 <= i < |files| ==> r[i] == SubjectOf(files[i])
  {
    if files == [] then [] else [SubjectOf(files[0])] + SubjectsOf(files[1..])
  }

  /**
   * `sorted({f.split("_")[0].replace("sub-", "") for f in csv_files})`:
   * increasing, without repetition, and holding exactly the subjects of the
   * listing's `.csv` files.
   */
  function SubjectIds(listing: seq<string>): (r: seq<string>)
    ensures StrictlySorted(r)
    ensures forall i, j :: 0 <= i < j < |r| ==> r[i] != r[j]
    ensures forall id :: id in r <==> SubjectInListing(listing, id)
  {
    var csv := CsvFiles(listing);
    var ids := SubjectsOf(csv);
    var r := SortedSet(ids);
    StrictlySortedDistinct(r);
    assert forall id :: id in ids <==> exists f :: f in csv && SubjectOf(f) == id by {
      forall id
        ensures id in ids <==> exists f :: f in csv && SubjectOf(f) == id
      {
        if id in ids {
          var i :| 0 <= i < |ids| && ids[i] == id;
          assert csv[i] in csv;
        }
        if exists f :: f in csv && SubjectOf(f) == id {
          var f :| f in csv && SubjectOf(f) == id;
          var i :| 0 <= i < |csv| && csv[i] == f;
          assert ids[i] == id;
        }
      }
    }
    r
  }

  /**
   * The start of the page: with no `.csv` file in the listing it stops with
   * a warning; otherwise it offers the (then non-empty) subject list.
   */
  function Catalog(listing: seq<string>): (r: Result<seq<string>>)
    ensures r.Err? <==> forall f :: f in listing ==> !EndsWith(f, CSV_SUFFIX)
    ensures r.Err? ==> r.message == NO_FILES_WARNING
    ensures r.Ok? ==> r.value == SubjectIds(listing) && r.value != []
  {
    var csv := CsvFiles(listing);
    if csv == [] then Err(NO_FILES_WARNING)
    else
      assert csv[0] in listing && SubjectOf(csv[0]) in SubjectIds(listing);
      Ok(SubjectIds(listing))
  }

  /** Every subject offered contains no `_`, wherever it came from. */
  lemma {:induction false} CatalogFreeOfSeparator(listing: seq<string>)
    ensures forall id :: id in SubjectIds(listing) ==> '_' !in id
  {
  }

  /**
   * `SubjectIds` is THE sorted list of subjects: any strictly increasing
   * sequence holding exactly the subjects of the listing's `.csv` files is
   * equal to it.
   */
  lemma SubjectIdsIsSortedSet(listing: seq<string>, other: seq<string>)
    requires StrictlySorted(other)
    requires forall id :: id in other <==> SubjectInListing(listing, id)
    ensures other == SubjectIds(listing)
  {
    SortedIsUnique(other, SubjectIds(listing));
  }

  /** Files that do not end in `.csv` contribute nothing. */
  lemma {:induction false} NonCsvIgnored(listing: seq<string>, extra: string)
    requires !EndsWith(extra, CSV_SUFFIX)
    ensures SubjectIds(listing + [extra]) == SubjectIds(listing)
  {
    var a := listing + [extra];
    forall id
      ensures SubjectInListing(a, id) <==> SubjectInListing(listing, id)
    {
      if exists f :: f in a && EndsWith(f, CSV_SUFFIX) && SubjectOf(f) == id {
        var f :| f in a && EndsWith(f, CSV_SUFFIX) && SubjectOf(f) == id;
        assert f in listing;
      }
      if exists f :: f in listing && EndsWith(f, CSV_SUFFIX) && SubjectOf(f) == id {
        var f :| f in listing && EndsWith(f, CSV_SUFFIX) && SubjectOf(f) == id;
        assert f in a;
      }
    }
    SubjectIdsIsSortedSet(listing + [extra], SubjectIds(listing));
  }
}
