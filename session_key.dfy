/**
 * The dataset key of a recording: the file name
 * `sub-{subject}_{session}_{task}.csv` built from the subject, condition
 * and task chosen on the page, through two fixed lookup tables.
 */
module SessionKey {
  import opened Text
  import Subjects

  const NORMAL_SLEEP := "Normal Sleep (NS)"
  const SLEEP_DEPRIVED := "Sleep Deprived (SD)"
  const EYES_OPEN := "Eyes Open"
  const EYES_CLOSED := "Eyes Closed"

  /** The two radio buttons, in the order they are offered. */
  const CONDITION_OPTIONS: seq<string> := [NORMAL_SLEEP, SLEEP_DEPRIVED]
  const TASK_OPTIONS: seq<string> := [EYES_OPEN, EYES_CLOSED]

  /** `cond_map` and `task_map`. */
  const COND_MAP: map<string, string> := map[NORMAL_SLEEP := "ses-1", SLEEP_DEPRIVED := "ses-2"]
  const TASK_MAP: map<string, string> := map[EYES_OPEN := "eyesopen", EYES_CLOSED := "eyesclosed"]

  /** A choice made on the page, as recovered from a dataset key. */
  datatype Choice = Choice(subject: string, condition: string, task: string)

  /** Each radio button has a code and each code belongs to a button. */
  lemma TablesMatchOptions()
    ensures COND_MAP.Keys == set c | c in CONDITION_OPTIONS
    ensures TASK_MAP.Keys == set t | t in TASK_OPTIONS
    ensures COND_MAP.Values == {"ses-1", "ses-2"}
    ensures TASK_MAP.Values == {"eyesopen", "eyesclosed"}
  {
    assert COND_MAP[NORMAL_SLEEP] == "ses-1" && COND_MAP[SLEEP_DEPRIVED] == "ses-2";
    assert TASK_MAP[EYES_OPEN] == "eyesopen" && TASK_MAP[EYES_CLOSED] == "eyesclosed";
  }

  /** Both tables are injective: different buttons give different codes. */
  lemma TablesInjective(c1: string, c2: string, t1: string, t2: string)
    requires c1 in COND_MAP && c2 in COND_MAP && t1 in TASK_MAP && t2 in TASK_MAP
    ensures COND_MAP[c1] == COND_MAP[c2] ==> c1 == c2
    ensures TASK_MAP[t1] == TASK_MAP[t2] ==> t1 == t2
  {
  }

  /** `subj_str`. */
  function SubjectStem(subject: string): (r: string)
    ensures StartsWith(r, Subjects.SUBJECT_PREFIX) && r[|Subjects.SUBJECT_PREFIX|..] == subject
  {
    Subjects.SUBJECT_PREFIX + subject
  }

  /** The part between the subject and `.csv`: `_{session}_{task}`. */
  function Middle(condition: string, task: string): string
    requires condition in COND_MAP && task in TASK_MAP
  {
    "_" + COND_MAP[condition] + "_" + TASK_MAP[task]
  }

  /**
   * `filename`: starts with `sub-` and the subject, ends in `.csv`, and
   * between them holds one of exactly four session/task codes.
   */
  function Filename(subject: string, condition: string, task: string): (r: string)
    requires condition in COND_MAP && task in TASK_MAP
    ensures |r| > |subject| + 8
    ensures StartsWith(r, "sub-" + subject) && EndsWith(r, ".csv")
    ensures r[4 + |subject|..|r| - 4] in
      {"_ses-1_eyesopen", "_ses-1_eyesclosed", "_ses-2_eyesopen", "_ses-2_eyesclosed"}
  {
    var r := SubjectStem(subject) + Middle(condition, task) + Subjects.CSV_SUFFIX;
    assert r[..4 + |subject|] == "sub-" + subject;
    assert r[4 + |subject|..|r| - 4] == Middle(condition, task);
    assert Middle(condition, task) in
      {"_ses-1_eyesopen", "_ses-1_eyesclosed", "_ses-2_eyesopen", "_ses-2_eyesclosed"} by {
      var m := Middle(condition, task);
      if condition == NORMAL_SLEEP {
        if task == EYES_OPEN {
          assert m == "_ses-1_eyesopen";
        } else {
          assert m == "_ses-1_eyesclosed";
        }
      } else {
        if task == EYES_OPEN {
          assert m == "_ses-2_eyesopen";
        } else {
          assert m == "_ses-2_eyesclosed";
        }
      }
    }
    r
  }

  /** The task whose code ends `body`, and what precedes `_code`. */
  function SplitTask(body: string): Option<(string, string)> {
    if EndsWith(body, "_eyesopen") then Some((EYES_OPEN, body[..|body| - 9]))
    else if EndsWith(body, "_eyesclosed") then Some((EYES_CLOSED, body[..|body| - 11]))
    else None
  }

  /** The condition whose code ends `body`, and what precedes `_code`. */
  function SplitCondition(body: string): Option<(string, string)> {
    if EndsWith(body, "_ses-1") then Some((NORMAL_SLEEP, body[..|body| - 6]))
    else if EndsWith(body, "_ses-2") then Some((SLEEP_DEPRIVED, body[..|body| - 6]))
    else None
  }

  datatype Option<T> = None | Some(value: T)

  /**
   * Reads a dataset key back into the choice that produced it, from the
   * right: `.csv`, then the task code, then the session code, then `sub-`.
   */
  function ParseFilename(f: string): Option<Choice> {
    if !EndsWith(f, ".csv") then None
    else
      match SplitTask(f[..|f| - 4])
      case None => None
      case Some((task, rest)) =>
        match SplitCondition(rest)
        case None => None
        case Some((condition, stem)) =>
          if StartsWith(stem, "sub-") then Some(Choice(stem[4..], condition, task)) else None
  }

  lemma SplitTaskOf(stem: string, task: string)
    requires task in TASK_MAP
    ensures SplitTask(stem + "_" + TASK_MAP[task]) == Some((task, stem))
  {
    if task == EYES_CLOSED {
      assert stem + "_" + TASK_MAP[task] == stem + "_eyesclosed";
      EndsWithJoin(stem, "_eyesclosed");
      EndsWithLast(stem + "_eyesclosed", "_eyesopen");
    } else {
      assert stem + "_" + TASK_MAP[task] == stem + "_eyesopen";
      EndsWithJoin(stem, "_eyesopen");
    }
  }

  lemma SplitConditionOf(stem: string, condition: string)
    requires condition in COND_MAP
    ensures SplitCondition(stem + "_" + COND_MAP[condition]) == Some((condition, stem))
  {
    if condition == SLEEP_DEPRIVED {
      assert stem + "_" + COND_MAP[condition] == stem + "_ses-2";
      EndsWithJoin(stem, "_ses-2");
      EndsWithLast(stem + "_ses-2", "_ses-1");
    } else {
      assert stem + "_" + COND_MAP[condition] == stem + "_ses-1";
      EndsWithJoin(stem, "_ses-1");
    }
  }

  lemma SplitTaskSound(body: string)
    requires SplitTask(body).Some?
    ensures var (task, rest) := SplitTask(body).value;
      task in TASK_MAP && body == rest + "_" + TASK_MAP[task]
  {
  }

  lemma SplitConditionSound(body: string)
    requires SplitCondition(body).Some?
    ensures var (condition, rest) := SplitCondition(body).value;
      condition in COND_MAP && body == rest + "_" + COND_MAP[condition]
  {
  }

  /** Round trip: the key always reads back as the choice that built it. */
  lemma {:induction false} FilenameRoundTrip(subject: string, condition: string, task: string)
    requires condition in COND_MAP && task in TASK_MAP
    ensures ParseFilename(Filename(subject, condition, task)) == Some(Choice(subject, condition, task))
  {
    var stem := "sub-" + subject;
    var withSession := stem + "_" + COND_MAP[condition];
    var body := withSession + "_" + TASK_MAP[task];
    var f := Filename(subject, condition, task);
    assert f == body + ".csv";
    assert f[..|f| - 4] == body;
    SplitTaskOf(withSession, task);
    SplitConditionOf(stem, condition);
    assert stem[4..] == subject;
  }

  /** Only keys built by `Filename` read back: parsing is its exact inverse. */
  lemma {:induction false} ParseFilenameSound(f: string)
    requires ParseFilename(f).Some?
    ensures var c := ParseFilename(f).value;
      c.condition in COND_MAP && c.task in TASK_MAP && Filename(c.subject, c.condition, c.task) == f
  {
    var body := f[..|f| - 4];
    var (task, rest) := SplitTask(body).value;
    SplitTaskSound(body);
    var (condition, stem) := SplitCondition(rest).value;
    SplitConditionSound(rest);
    assert stem == "sub-" + stem[4..];
    EndsWithSplit(f, ".csv");
    assert f == SubjectStem(stem[4..]) + Middle(condition, task) + ".csv";
  }

  /** Distinct choices give distinct keys. */
  lemma {:induction false} FilenameInjective(s1: string, c1: string, t1: string, s2: string, c2: string, t2: string)
    requires c1 in COND_MAP && t1 in TASK_MAP && c2 in COND_MAP && t2 in TASK_MAP
    requires Filename(s1, c1, t1) == Filename(s2, c2, t2)
    ensures s1 == s2 && c1 == c2 && t1 == t2
  {
    FilenameRoundTrip(s1, c1, t1);
    FilenameRoundTrip(s2, c2, t2);
  }

  /**
   * The catalog reads a key back as its subject with every `sub-` removed,
   * provided the subject holds no `_`.
   */
  lemma {:induction false} SubjectOfKey(subject: string, condition: string, task: string)
    requires condition in COND_MAP && task in TASK_MAP
    requires '_' !in subject
    ensures Subjects.SubjectOf(Filename(subject, condition, task)) == RemoveAll(subject, Subjects.SUBJECT_PREFIX)
  {
    var stem := "sub-" + subject;
    assert '_' !in stem;
    var tail := COND_MAP[condition] + "_" + TASK_MAP[task] + ".csv";
    assert Filename(subject, condition, task) == stem + ['_'] + tail;
    FirstFieldOfJoin(stem, '_', tail);
    RemoveAllLeading("sub-", subject);
  }

  /**
   * The catalog reads the chosen subject back from its key, provided the
   * subject holds no `_` and no `sub-`.
   */
  lemma {:induction false} SubjectRoundTrip(subject: string, condition: string, task: string)
    requires condition in COND_MAP && task in TASK_MAP
    requires '_' !in subject && !Occurs(subject, Subjects.SUBJECT_PREFIX)
    ensures Subjects.SubjectOf(Filename(subject, condition, task)) == subject
  {
    SubjectOfKey(subject, condition, task);
    RemoveAllIdentity(subject, Subjects.SUBJECT_PREFIX);
  }

  /** Without the side condition the round trip fails: `sub-` is removed from the subject too. */
  lemma SubjectRoundTripNeedsNoPrefix()
    ensures Subjects.SubjectOf(Filename("sub-7", NORMAL_SLEEP, EYES_OPEN)) == "7"
  {
    SubjectOfKey("sub-7", NORMAL_SLEEP, EYES_OPEN);
    RemoveAllLeading("sub-", "7");
    assert !StartsWith("7", "sub-") && "7"[1..] == [];
  }
}
