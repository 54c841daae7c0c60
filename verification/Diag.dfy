/** src/diag.c: the log file with its rotated backups. */
module Diag {
  import opened Bytes

  const ROTATE_BYTES: nat := 1024 * 1024
  const ROTATE_KEEP: nat := 3
  const LINE_CAP: nat := 1400

  /** Contents by suffix number: 0 is the log itself, 1 to 3 are "path.1" to "path.3". */
  type Files = map<nat, bytes>

  function Content(files: Files, k: nat): bytes {
    if k in files then files[k] else []
  }

  /** rename, which replaces the target and does nothing without a source. */
  function Moved(files: Files, from: nat, to: nat): Files {
    if from in files then (files - {from})[to := files[from]] else files
  }

  function Rotated(files: Files): Files {
    Moved(Moved(Moved(files, 2, 3), 1, 2), 0, 1)
  }

  /** The files after one line reaches the log. */
  function Logged(files: Files, line: bytes): Files {
    var ready := if 0 in files && |files[0]| + |line| >= ROTATE_BYTES then Rotated(files) else files;
    ready[0 := Content(ready, 0) + line]
  }

  class Log {
    var files: Files
    var initialized: bool
    var level: nat

    /** diag_init on a fresh path: an empty log file. */
    constructor (level: nat)
      ensures files == map[0 := []] && initialized && this.level == level
    {
      files := map[0 := []];
      initialized := true;
      this.level := level;
    }

    method RotateLogsIfNeeded(incoming: nat)
      modifies this`files
      ensures files == if 0 in old(files) && |old(files)[0]| + incoming >= ROTATE_BYTES
                       then Rotated(old(files)) else old(files)
    {
      if 0 !in files {
        return;
      }
      if |files[0]| + incoming < ROTATE_BYTES {
        return;
      }
      ghost var before := files;
      for i := ROTATE_KEEP downto 0
        invariant i == 3 ==> files == before
        invariant i == 2 ==> files == Moved(before, 2, 3)
        invariant i == 1 ==> files == Moved(Moved(before, 2, 3), 1, 2)
        invariant i == 0 ==> files == Rotated(before)
        invariant i <= 3
      {
        // i now stands for the source of the rename, one below the target.
        if i in files {
          var content := files[i];
          files := files - {i};
          files := files[i + 1 := content];
        }
      }
    }

    method DiagLog(lineLevel: nat, line: bytes)
      requires |line| < LINE_CAP
      modifies this`files
      ensures files == if initialized && lineLevel <= level then Logged(old(files), line) else old(files)
    {
      hide Rotated;
      if !initialized || lineLevel > level {
        return;
      }
      RotateLogsIfNeeded(|line|);
      var content := if 0 in files then files[0] else [];
      files := files[0 := content + line];
    }
  }

  // ---- Whole runs ----

  function LogAll(files: Files, lines: seq<bytes>): Files
    decreases |lines|
  {
    if lines == [] then files else LogAll(Logged(files, lines[0]), lines[1..])
  }

  /** Everything kept, oldest first. */
  function Retained(files: Files): bytes {
    Content(files, 3) + Content(files, 2) + Content(files, 1) + Content(files, 0)
  }

  predicate IsSuffix(s: bytes, whole: bytes) {
    |s| <= |whole| && whole[|whole| - |s|..] == s
  }

  /** The backups are contiguous, every file is below the limit, and a backup is nearly full. */
  predicate FilesOk(files: Files) {
    && 0 in files && files.Keys <= {0, 1, 2, 3}
    && (2 in files ==> 1 in files) && (3 in files ==> 2 in files)
    && (forall k <- files :: |files[k]| < ROTATE_BYTES)
    && (forall k <- files :: k >= 1 ==> |files[k]| + LINE_CAP > ROTATE_BYTES)
  }

  /** Retained is a suffix of everything logged, and all of it until the last backup exists. */
  predicate HistoryOk(files: Files, logged: bytes) {
    IsSuffix(Retained(files), logged) && (3 !in files ==> Retained(files) == logged)
  }

  lemma SuffixGrows(s: bytes, whole: bytes, line: bytes)
    requires IsSuffix(s, whole)
    ensures IsSuffix(s + line, whole + line)
  {
    var k := |whole| - |s|;
    assert (whole + line)[k..] == whole[k..] + line;
  }

  lemma SuffixOfSuffix(front: bytes, s: bytes, whole: bytes)
    requires IsSuffix(front + s, whole)
    ensures IsSuffix(s, whole)
  {
    var k := |whole| - |front + s|;
    assert whole[k..][|front|..] == whole[k + |front|..];
    assert (front + s)[|front|..] == s;
  }

  lemma RotatedContents(files: Files)
    requires FilesOk(files)
    ensures var r := Rotated(files);
            && 0 !in r && Content(r, 1) == Content(files, 0)
            && Content(r, 2) == Content(files, 1) && Content(r, 3) == Content(files, 2)
            && (1 in r) && (2 in r <==> 1 in files) && (3 in r <==> 2 in files)
            && r.Keys <= {1, 2, 3}
  {
  }

  lemma LoggedOk(files: Files, line: bytes)
    requires FilesOk(files) && |line| < LINE_CAP
    ensures FilesOk(Logged(files, line))
  {
    hide Rotated;
    RotatedContents(files);
    var r := Rotated(files);
    var after := Logged(files, line);
    forall k <- after ensures |after[k]| < ROTATE_BYTES && (k >= 1 ==> |after[k]| + LINE_CAP > ROTATE_BYTES) {
      if k >= 1 && |files[0]| + |line| >= ROTATE_BYTES {
        assert after[k] == Content(r, k) == Content(files, k - 1);
        assert k - 1 in files;
      }
    }
  }

  lemma LoggedHistory(files: Files, line: bytes, logged: bytes)
    requires FilesOk(files) && HistoryOk(files, logged)
    ensures HistoryOk(Logged(files, line), logged + line)
  {
    hide Rotated, IsSuffix, FilesOk, Retained;
    LoggedRetains(files, line);
    SuffixGrows(Retained(files), logged, line);
    if |Retained(Logged(files, line))| < |Retained(files) + line| {
      SuffixOfSuffix(files[3], Retained(Logged(files, line)), logged + line);
    }
  }

  /** A line is added at the end; a rotation drops the oldest backup, if there is one. */
  lemma LoggedRetains(files: Files, line: bytes)
    requires FilesOk(files)
    ensures var after := Logged(files, line);
            || (Retained(after) == Retained(files) + line && (3 in files ==> 3 in after))
            || (3 in files && 3 in after && |files[3]| > 0
                && files[3] + Retained(after) == Retained(files) + line)
  {
    hide Rotated;
    RotatedContents(files);
    Regroup(Content(files, 3), Content(files, 2), Content(files, 1), Content(files, 0), line);
  }

  lemma Regroup(a: bytes, b: bytes, c: bytes, d: bytes, line: bytes)
    ensures a + b + c + d + line == a + (b + c + d + line)
    ensures a + b + c + d + line == a + b + c + (d + line)
    ensures [] + line == line && a + [] == a
  {
  }

  lemma {:induction false} RunOk(files: Files, lines: seq<bytes>, logged: bytes)
    requires FilesOk(files) && HistoryOk(files, logged)
    requires forall i :: 0 <= i < |lines| ==> |lines[i]| < LINE_CAP
    ensures FilesOk(LogAll(files, lines)) && HistoryOk(LogAll(files, lines), logged + Concat(lines))
    decreases |lines|
  {
    hide FilesOk, HistoryOk, Logged;
    if lines == [] {
      assert logged + [] == logged;
    } else {
      LoggedOk(files, lines[0]);
      LoggedHistory(files, lines[0], logged);
      RunOk(Logged(files, lines[0]), lines[1..], logged + lines[0]);
      assert (logged + lines[0]) + Concat(lines[1..]) == logged + Concat(lines);
    }
  }

  /** From a fresh path, for any lines: backups are contiguous, each file stays below 1 MiB, and the
      kept files from oldest to newest are a suffix of everything logged: all of it until the third
      backup exists, and after that never less than 3 * (1 MiB - 1400) bytes. */
  lemma Retention(lines: seq<bytes>)
    requires forall i :: 0 <= i < |lines| ==> |lines[i]| < LINE_CAP
    ensures var files := LogAll(map[0 := []], lines);
            && 0 in files && (2 in files ==> 1 in files) && (3 in files ==> 2 in files)
            && (forall k <- files :: |files[k]| < ROTATE_BYTES)
            && IsSuffix(Retained(files), Concat(lines))
            && (3 !in files ==> Retained(files) == Concat(lines))
            && (3 in files ==> |Retained(files)| > 3 * (ROTATE_BYTES - LINE_CAP))
  {
    hide IsSuffix;
    var empty: Files := map[0 := []];
    FreshOk();
    RunOk(empty, lines, []);
    assert [] + Concat(lines) == Concat(lines);
    var files := LogAll(empty, lines);
    if 3 in files {
      assert |files[1]| + LINE_CAP > ROTATE_BYTES;
      assert |files[2]| + LINE_CAP > ROTATE_BYTES;
      assert |files[3]| + LINE_CAP > ROTATE_BYTES;
    }
  }

  lemma FreshOk()
    ensures FilesOk(map[0 := []]) && HistoryOk(map[0 := []], [])
  {
    var empty: Files := map[0 := []];
    assert Retained(empty) == [];
  }
}
