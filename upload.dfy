/**
 The upload driver (index.ts:60-107) and the whole run of the uploader
 (index.ts:53-107). The storage client is an outcome oracle: `ok(n)` says
 whether the run's n-th call of `client.write` (counting from 0) succeeds.
 The directory walk is its result: the listing, or `None` when `readdir`
 rejects (the directory is missing, is not a directory, or cannot be read).
 `basename` is passed in. A run is described by the ordered log of what it
 does and by how it ends.
 */
module Upload {
  import opened Options
  import opened Dispatch
  import opened Collect

  /** What the client is constructed with (index.ts:66-72). */
  datatype ClientConfig = ClientConfig(
    bucket: string,
    region: Option<string>,
    accessKeyId: Option<string>,
    secretAccessKey: Option<string>,
    endpoint: Option<string>)

  datatype Event =
    | NewClient(config: ClientConfig)      // new S3Client(...)
    | ReadDir(dir: string)                 // readdir(dir, { recursive: true, ... })
    | Write(key: string, source: string)   // client.write(key, Bun.file(source)) is called
    | Uploaded(key: string)                // "Uploaded key to bucket", after the write succeeded
    | Summary(count: nat)                  // "Uploaded count files to bucket"

  /** How a run ends: normally, by a usage error, or by the rejection of the directory walk or of one write. */
  datatype Outcome =
    | Completed
    | UsageError(reason: UsageReason)
    | ListFailed(dir: string)
    | WriteFailed(key: string)

  datatype Trace = Trace(log: seq<Event>, outcome: Outcome)

  /**
   The process exit status: `process.exit(1)` and `cli.showHelp(1)` for usage
   errors, 1 for the unhandled rejection of `readdir` or of a write, 0 otherwise.
   */
  function ExitCode(o: Outcome): (code: nat)
    ensures code == 0 <==> o == Completed
    ensures code <= 1
  {
    match o
    case Completed => 0
    case UsageError(_) => 1
    case ListFailed(_) => 1
    case WriteFailed(_) => 1
  }

  /** The flags are handed to the client verbatim. */
  function Config(bucket: string, flags: Flags): ClientConfig
  {
    ClientConfig(bucket, flags.region, flags.accessKeyId, flags.secretAccessKey, flags.endpoint)
  }

  /**
   The `for` loop at index.ts:100-103, one file after the other, starting with
   the n-th write call of the run: each file is written under its own path and
   reported; a failing write ends the loop, since nothing catches its error.
   */
  function DirLog(files: seq<string>, ok: nat -> bool, n: nat): Trace
    decreases |files|
  {
    if files == [] then Trace([], Completed)
    else if !ok(n) then Trace([Write(files[0], files[0])], WriteFailed(files[0]))
    else
      var rest := DirLog(files[1..], ok, n + 1);
      Trace([Write(files[0], files[0]), Uploaded(files[0])] + rest.log, rest.outcome)
  }

  /** Lines 100-105: the loop, then the summary, which only a loop that ran through prints. */
  function DriverLog(files: seq<string>, ok: nat -> bool): Trace
  {
    var t := DirLog(files, ok, 0);
    if t.outcome == Completed then Trace(t.log + [Summary(|files|)], Completed) else t
  }

  /** How many of the write calls n, n+1, ..., n+m-1 succeed before the first failure. */
  function LeadingOk(ok: nat -> bool, n: nat, m: nat): (k: nat)
    ensures k <= m
    ensures forall j :: n <= j < n + k ==> ok(j)
    ensures k < m ==> !ok(n + k)
    decreases m
  {
    if m == 0 || !ok(n) then 0 else 1 + LeadingOk(ok, n + 1, m - 1)
  }

  /** The loop itself never prints the summary. */
  lemma {:induction false} DirLogNoSummary(files: seq<string>, ok: nat -> bool, n: nat)
    ensures forall i :: 0 <= i < |DirLog(files, ok, n).log| ==> !DirLog(files, ok, n).log[i].Summary?
    decreases |files|
  {
    if files != [] && ok(n) {
      DirLogNoSummary(files[1..], ok, n + 1);
    }
  }

  /**
   How the loop's log ends: with k the number of leading successful writes,
   the log holds two events per successful write, then either the failing
   write of the k-th file, which ends the loop, or nothing more.
   */
  lemma {:induction false} DirLogEnd(files: seq<string>, ok: nat -> bool, n: nat)
    ensures var t, k := DirLog(files, ok, n), LeadingOk(ok, n, |files|);
      && |t.log| == 2 * k + (if k < |files| then 1 else 0)
      && (k < |files| ==> t.log[2 * k] == Write(files[k], files[k]) && t.outcome == WriteFailed(files[k]))
      && (k == |files| ==> t.outcome == Completed)
    decreases |files|
  {
    if files != [] && ok(n) {
      var rest, k' := DirLog(files[1..], ok, n + 1), LeadingOk(ok, n + 1, |files| - 1);
      DirLogEnd(files[1..], ok, n + 1);
      var t := DirLog(files, ok, n);
      assert LeadingOk(ok, n, |files|) == k' + 1;
      assert t.log == [Write(files[0], files[0]), Uploaded(files[0])] + rest.log;
      if k' < |files| - 1 {
        assert t.log[2 * (k' + 1)] == rest.log[2 * k'];
        assert files[1..][k'] == files[k' + 1];
      }
    }
  }

  /**
   The loop's log in closed form: with k the number of leading successful
   writes, the i-th file is written and then reported for every i < k, strictly
   alternating; then either the k-th file's write fails and nothing follows it,
   or every file was uploaded.
   */
  lemma {:induction false} DirLogShape(files: seq<string>, ok: nat -> bool, n: nat)
    ensures var t, k := DirLog(files, ok, n), LeadingOk(ok, n, |files|);
      && |t.log| == 2 * k + (if k < |files| then 1 else 0)
      && (forall i :: 0 <= i < k ==>
            t.log[2 * i] == Write(files[i], files[i]) && t.log[2 * i + 1] == Uploaded(files[i]))
      && (k < |files| ==> t.log[2 * k] == Write(files[k], files[k]) && t.outcome == WriteFailed(files[k]))
      && (k == |files| ==> t.outcome == Completed)
    decreases |files|
  {
    DirLogEnd(files, ok, n);
    if files != [] && ok(n) {
      var rest, k' := DirLog(files[1..], ok, n + 1), LeadingOk(ok, n + 1, |files| - 1);
      DirLogShape(files[1..], ok, n + 1);
      var t := DirLog(files, ok, n);
      assert LeadingOk(ok, n, |files|) == k' + 1;
      assert t.log == [Write(files[0], files[0]), Uploaded(files[0])] + rest.log;
      forall i | 0 <= i < k' + 1
        ensures t.log[2 * i] == Write(files[i], files[i]) && t.log[2 * i + 1] == Uploaded(files[i])
      {
        if i > 0 {
          var j := i - 1;
          assert t.log[2 * i] == rest.log[2 * j];
          assert t.log[2 * i + 1] == rest.log[2 * j + 1];
          assert files[1..][j] == files[i];
        }
      }
    }
  }

  /**
   The driver of index.ts:100-105 over the collected paths: one write per path,
   in order, with the path as both key and source; it stops at the first
   failing write, and prints the count only after every write succeeded.
   */
  method UploadFiles(files: seq<string>, ok: nat -> bool) returns (log: seq<Event>, outcome: Outcome)
    ensures Trace(log, outcome) == DriverLog(files, ok)
  {
    log := [];
    for i := 0 to |files|
      invariant log + DirLog(files[i..], ok, i).log == DirLog(files, ok, 0).log
      invariant DirLog(files[i..], ok, i).outcome == DirLog(files, ok, 0).outcome
    {
      var file := files[i];
      assert files[i..][1..] == files[i + 1..];
      log := log + [Write(file, file)];
      if !ok(i) {
        outcome := WriteFailed(file);
        return;
      }
      log := log + [Uploaded(file)];
    }
    log := log + [Summary(|files|)];
    outcome := Completed;
  }

  /**
   The run of the uploader on its arguments, what `readdir` returns and the
   client's answers. A rejected `readdir` ends the run right after the walk
   began: nothing catches it, so no file is written.
   */
  function Behaviour(input: seq<string>, flags: Flags, listing: Option<seq<Dirent>>,
                     ok: nat -> bool, basename: string -> string): Trace
  {
    match Resolve(input, flags)
    case Usage(reason) => Trace([], UsageError(reason))
    case FileMode(bucket, file) =>
      var key := basename(file);
      var start := [NewClient(Config(bucket, flags)), Write(key, file)];
      if ok(0) then Trace(start + [Uploaded(key)], Completed) else Trace(start, WriteFailed(key))
    case DirMode(bucket, dir) =>
      var start := [NewClient(Config(bucket, flags)), ReadDir(dir)];
      match listing
      case None => Trace(start, ListFailed(dir))
      case Some(entries) =>
        var t := DriverLog(FilePaths(entries), ok);
        Trace(start + t.log, t.outcome)
  }

  /** The uploader from argument validation to the last write (index.ts:53-107). */
  method Run(input: seq<string>, flags: Flags, listing: Option<seq<Dirent>>,
             ok: nat -> bool, basename: string -> string)
    returns (log: seq<Event>, outcome: Outcome)
    ensures Trace(log, outcome) == Behaviour(input, flags, listing, ok, basename)
  {
    match Resolve(input, flags)
    case Usage(reason) =>
      log, outcome := [], UsageError(reason);
    case FileMode(bucket, file) =>
      log := [NewClient(Config(bucket, flags))];
      var key := basename(file);
      log := log + [Write(key, file)];
      if !ok(0) {
        outcome := WriteFailed(key);
        return;
      }
      log := log + [Uploaded(key)];
      outcome := Completed;
    case DirMode(bucket, dir) =>
      log := [NewClient(Config(bucket, flags)), ReadDir(dir)];
      if listing.None? {
        outcome := ListFailed(dir);
        return;
      }
      var files := CollectFiles(listing.value);
      var writes;
      writes, outcome := UploadFiles(files, ok);
      log := log + writes;
  }

  /** Without a truthy bucket the run stops with a usage error and does nothing else. */
  lemma MissingBucketAborts(input: seq<string>, flags: Flags, listing: Option<seq<Dirent>>,
                            ok: nat -> bool, basename: string -> string)
    requires !Truthy(BucketArg(input))
    ensures Behaviour(input, flags, listing, ok, basename) == Trace([], UsageError(MissingBucket))
    ensures ExitCode(Behaviour(input, flags, listing, ok, basename).outcome) == 1
  {
  }

  /** With a bucket but neither file nor dir, the run stops before a client exists or a write happens. */
  lemma MissingSourceAborts(input: seq<string>, flags: Flags, listing: Option<seq<Dirent>>,
                            ok: nat -> bool, basename: string -> string)
    requires Truthy(BucketArg(input)) && !Truthy(flags.file) && !Truthy(flags.dir)
    ensures Behaviour(input, flags, listing, ok, basename) == Trace([], UsageError(MissingSource))
    ensures ExitCode(Behaviour(input, flags, listing, ok, basename).outcome) == 1
  {
  }

  /**
   File mode: the client comes first, then exactly one write, keyed by the
   base name of the file and reading the file itself; the directory is never
   read, and neither the `dir` flag nor the listing changes anything.
   */
  lemma FileModeWritesOnce(input: seq<string>, flags: Flags, listing: Option<seq<Dirent>>,
                           ok: nat -> bool, basename: string -> string,
                           otherDir: Option<string>, otherListing: Option<seq<Dirent>>)
    requires Truthy(BucketArg(input)) && Truthy(flags.file)
    ensures var t, file := Behaviour(input, flags, listing, ok, basename), flags.file.value;
      && t.log[0] == NewClient(Config(input[0], flags))
      && t.log[1] == Write(basename(file), file)
      && (forall i :: 0 <= i < |t.log| && i != 1 ==> !t.log[i].Write? && !t.log[i].ReadDir?)
      && (ok(0) <==> t.outcome == Completed)
      && (ok(0) ==> t.log[2..] == [Uploaded(basename(file))])
      && (!ok(0) ==> |t.log| == 2 && t.outcome == WriteFailed(basename(file)))
    ensures Behaviour(input, flags, listing, ok, basename)
         == Behaviour(input, flags.(dir := otherDir), otherListing, ok, basename)
  {
  }

  /** Directory mode with a listing: the client, the walk, then the driver's log. */
  lemma DirModeStart(input: seq<string>, flags: Flags, entries: seq<Dirent>,
                     ok: nat -> bool, basename: string -> string)
    requires Truthy(BucketArg(input)) && !Truthy(flags.file) && Truthy(flags.dir)
    ensures var t, d := Behaviour(input, flags, Some(entries), ok, basename), DriverLog(FilePaths(entries), ok);
      && t.log == [NewClient(Config(input[0], flags)), ReadDir(flags.dir.value)] + d.log
      && t.outcome == d.outcome
  {
    assert Resolve(input, flags) == DirMode(input[0], flags.dir.value);
  }

  /**
   Directory mode with a listing `readdir` returned: after the client and the walk, with k the number of
   leading successful writes among the N collected paths, the i-th path is
   written under its own name and reported before the next write starts. If
   the k-th write fails, it is the last event: no later path is attempted and
   no summary is printed. Otherwise the summary counts the N paths, which are
   the regular-file entries of the listing.
   */
  lemma {:induction false} DirModeTrace(input: seq<string>, flags: Flags, entries: seq<Dirent>,
                                        ok: nat -> bool, basename: string -> string)
    requires Truthy(BucketArg(input)) && !Truthy(flags.file) && Truthy(flags.dir)
    ensures var t, files := Behaviour(input, flags, Some(entries), ok, basename), FilePaths(entries);
      var k := LeadingOk(ok, 0, |files|);
      && |t.log| == 2 * k + 3
      && t.log[0] == NewClient(Config(input[0], flags))
      && t.log[1] == ReadDir(flags.dir.value)
      && (forall i :: 0 <= i < k ==>
            t.log[2 + 2 * i] == Write(files[i], files[i]) && t.log[3 + 2 * i] == Uploaded(files[i]))
      && (k < |files| ==> t.log[2 + 2 * k] == Write(files[k], files[k]) && t.outcome == WriteFailed(files[k]))
      && (k == |files| ==> t.log[2 + 2 * k] == Summary(CountFiles(entries)) && t.outcome == Completed)
  {
    var files := FilePaths(entries);
    DirModeStart(input, flags, entries, ok, basename);
    DirLogShape(files, ok, 0);
    FilePathsCount(entries);
    var d := DirLog(files, ok, 0);
    var t := Behaviour(input, flags, Some(entries), ok, basename);
    var k := LeadingOk(ok, 0, |files|);
    var head := [NewClient(Config(input[0], flags)), ReadDir(flags.dir.value)];
    if k == |files| {
      assert t.log == head + d.log + [Summary(|files|)];
    } else {
      assert t.log == head + d.log;
    }
    forall i | 0 <= i < k
      ensures t.log[2 + 2 * i] == Write(files[i], files[i]) && t.log[3 + 2 * i] == Uploaded(files[i])
    {
      assert t.log[2 + 2 * i] == d.log[2 * i];
      assert t.log[3 + 2 * i] == d.log[2 * i + 1];
    }
  }

  /**
   Fail-fast, from the caller's side: if writes 0..k-1 succeed and the k-th
   fails, the paths before it are reported uploaded, the run ends on that
   write's failure with exit code 1, and no later write is attempted.
   */
  lemma FailFast(input: seq<string>, flags: Flags, entries: seq<Dirent>,
                 ok: nat -> bool, basename: string -> string, k: nat)
    requires Truthy(BucketArg(input)) && !Truthy(flags.file) && Truthy(flags.dir)
    requires k < |FilePaths(entries)|
    requires forall j :: 0 <= j < k ==> ok(j)
    requires !ok(k)
    ensures var t, files := Behaviour(input, flags, Some(entries), ok, basename), FilePaths(entries);
      && t.outcome == WriteFailed(files[k]) && ExitCode(t.outcome) == 1
      && |t.log| == 2 * k + 3
      && (forall i :: 0 <= i < k ==> t.log[3 + 2 * i] == Uploaded(files[i]))
      && t.log[|t.log| - 1] == Write(files[k], files[k])
      && (forall i :: 0 <= i < |t.log| ==> !t.log[i].Summary?)
  {
    var files := FilePaths(entries);
    DirModeTrace(input, flags, entries, ok, basename);
    DirLogShape(files, ok, 0);
    DirLogNoSummary(files, ok, 0);
    assert LeadingOk(ok, 0, |files|) == k;
    DirModeStart(input, flags, entries, ok, basename);
    var d := DirLog(files, ok, 0);
    var t := Behaviour(input, flags, Some(entries), ok, basename);
    assert t.log == [NewClient(Config(input[0], flags)), ReadDir(flags.dir.value)] + d.log;
  }

  /**
   Full success: when every write succeeds, the run ends normally with exit
   code 0, every collected path was reported, and the last line is the
   summary, whose count is the number of regular-file entries in the listing.
   */
  lemma FullSuccess(input: seq<string>, flags: Flags, entries: seq<Dirent>,
                    ok: nat -> bool, basename: string -> string)
    requires Truthy(BucketArg(input)) && !Truthy(flags.file) && Truthy(flags.dir)
    requires forall j :: 0 <= j < |FilePaths(entries)| ==> ok(j)
    ensures var t, files := Behaviour(input, flags, Some(entries), ok, basename), FilePaths(entries);
      && t.outcome == Completed && ExitCode(t.outcome) == 0
      && |t.log| == 2 * |files| + 3
      && (forall i :: 0 <= i < |files| ==> t.log[3 + 2 * i] == Uploaded(files[i]))
      && t.log[|t.log| - 1] == Summary(CountFiles(entries))
  {
    var files := FilePaths(entries);
    DirModeTrace(input, flags, entries, ok, basename);
    assert LeadingOk(ok, 0, |files|) == |files|;
  }

  /**
   A rejected directory walk: the client was built and the walk began, and
   then the run ends with exit code 1 before any write or report.
   */
  lemma ListFailedAborts(input: seq<string>, flags: Flags, ok: nat -> bool, basename: string -> string)
    requires Truthy(BucketArg(input)) && !Truthy(flags.file) && Truthy(flags.dir)
    ensures var t := Behaviour(input, flags, None, ok, basename);
      && t.log == [NewClient(Config(input[0], flags)), ReadDir(flags.dir.value)]
      && t.outcome == ListFailed(flags.dir.value) && ExitCode(t.outcome) == 1
  {
  }
}
