# s3upload: a Dafny model of the uploader's core

`s3upload <bucket> --file <path> | --dir <path>` uploads one file, or every
regular file under a directory tree, to an S3-compatible bucket. This project
models the logic of `index.ts` that can be stated precisely:

- **Argument validation and mode dispatch** (`dispatch.dfy`, module `Dispatch`):
  a missing or falsy bucket aborts, neither `--file` nor `--dir` aborts, and
  `--file` wins over `--dir`. Flags are `Option<string>`. JavaScript
  truthiness is explicit (`Truthy`), so an empty string counts as absent.
- **Directory-entry reduction** (`collect.dfy`, module `Collect`): the
  `reduce` over the `readdir` listing keeps the regular files in order. It
  maps each one to `parentPath + "/" + name`, or to `name` when `parentPath`
  is empty. `FilePaths` is the step-by-step specification. `CollectFiles` is
  the accumulating loop and is proved equal to it. Lemmas tie both to an
  independent description: the increasing list of all file-entry positions
  (`FileIndices`) and a front-to-back count (`CountFiles`).
- **The sequential, fail-fast upload driver and the whole run**
  (`upload.dfy`, module `Upload`): a run is an ordered log of events
  (`NewClient`, `ReadDir`, `Write(key, source)`, `Uploaded(key)`,
  `Summary(count)`) plus an outcome (`Completed`, `UsageError`,
  `ListFailed`, `WriteFailed`). `Behaviour` specifies the run. `Run` and `UploadFiles`
  are the imperative code, proved against it. The lemmas cover the usage
  errors, file precedence, the strict write/report alternation, fail-fast
  and the summary count.

Abstractions:

- The storage client is an outcome oracle. `ok(n)` says whether the run's
  n-th call of `client.write`, counting from 0, succeeds.
- `path.basename` is a parameter of type `string -> string`.
- The result of the directory walk is an input: `Some(entries)`, a sequence of
  `Dirent(isFile, parentPath, name)` in no assumed order, or `None` when
  `readdir` rejects because the directory is missing, is not a directory or
  cannot be read. Nothing catches that rejection, so the run ends with
  `ListFailed(dir)` and exit code 1 before any write.

Notes on behaviour:

- The code tests the bucket by truthiness (`if (bucket)`), so an empty first
  argument is rejected like a missing one. The model follows the code, which
  is stricter than a plain "no bucket argument" rule.
- In directory mode the remote key is the local path exactly as the listing
  yields it. When `parentPath` carries the directory argument, the key starts
  with that directory (`build/index.html`). The model keeps this.
- The guard `if (flags.dir)` at index.ts:82 always holds once the check at
  index.ts:61 has passed, so `ChooseMode` has no fourth case.
- A failing write rejects the promise of `upload`, and nothing catches it.
  The model ends the run there with `WriteFailed(key)`, and `ExitCode` maps
  that to 1.
- `Collect.EntryPathInjective` is a property of the model rather than a
  promise of the code: when names hold no '/', distinct entries never share
  a remote key, so no upload of a run overwrites another.

## Model

| member | source | states |
|---|---|---|
| `Dispatch.Truthy` | index.ts:61-61 | JavaScript truthiness of a string-or-`undefined` flag, as tested at index.ts:54, 61, 75, 82 and 92: only a non-empty string is truthy. It has no contract; its meaning is used in the contract of `Dispatch.Resolve`. |
| `Dispatch.BucketArg` | index.ts:53-53 | `cli.input.at(0)`: the first positional argument, or `None`. It has no contract; `Dispatch.Resolve` states what follows from it. |
| `Dispatch.ChooseMode` | index.ts:60-82 | `upload`'s own check and its branch order, file before dir. It has no contract; its properties are those of `Dispatch.Resolve` and `Dispatch.FileTakesPrecedence`. |
| `Dispatch.Resolve` | index.ts:53-82 | A falsy or missing first argument gives `Usage(MissingBucket)`. A truthy bucket with neither flag truthy gives `Usage(MissingSource)`. File mode is chosen exactly when bucket and `file` are truthy. Dir mode is chosen exactly when the bucket is truthy, `file` is falsy and `dir` is truthy. Each mode carries the given, non-empty bucket and path. |
| `Dispatch.BucketCheckedFirst` | index.ts:53-58 | Without a truthy bucket the verdict is `Usage(MissingBucket)` whatever the flags are. |
| `Dispatch.FileTakesPrecedence` | index.ts:74-80 | Once `file` is truthy, changing `dir` changes nothing, and the plan is `FileMode(bucket, file)`. |
| `Collect.EntryPath` | index.ts:91-95 | Gives `name` when `parentPath` is empty. Otherwise the path is `parentPath`, then one '/', then `name`, with the matching length. |
| `Collect.EntryPathInjective` | index.ts:92-94 | When names contain no '/', equal paths imply equal parent paths and names, so distinct files get distinct keys. |
| `Collect.FileIndices` | index.ts:89-90 | Lists the positions of the file entries: only file entries, strictly increasing, and every file entry included. |
| `Collect.FilePaths` | index.ts:89-98 | Never yields more paths than there are entries. |
| `Collect.FilePathsAreFileEntries` | index.ts:89-98 | The collected list has one element per file entry, in enumeration order. Its k-th element is the path of the k-th file entry. |
| `Collect.FilePathsCount` | index.ts:89-98 | The number of collected paths equals the number of file-typed entries, counted independently. |
| `Collect.FilePathsAppend` | index.ts:89-98 | The reduction distributes over concatenated listings. |
| `Collect.NonFileIgnored` | index.ts:90-96 | A non-file entry contributes nothing, wherever it appears. |
| `Collect.CollectFiles` | index.ts:89-98 | The accumulating reducer returns exactly `FilePaths(entries)`. |
| `Upload.ExitCode` | index.ts:53-107 | The exit status is 0 exactly for a completed run. It is 1 for the usage errors (index.ts:57, 63) and for the uncaught rejection of `readdir` (index.ts:84) or of `client.write` (index.ts:77, 101). |
| `Upload.Config` | index.ts:66-72 | The client is built from the bucket and the region, key and endpoint flags, passed through unchanged. It has no contract; `Upload.FileModeWritesOnce` and `Upload.DirModeTrace` state that the log's first event carries it. |
| `Upload.DirLog` | index.ts:100-103 | The write loop, one path after the other from the n-th write call. It has no contract; its closed form is `Upload.DirLogShape`. |
| `Upload.DriverLog` | index.ts:100-105 | The loop followed by the summary, which only a loop that ran through prints. It has no contract; `Upload.UploadFiles` is proved equal to it, and `Upload.DirModeTrace`, `Upload.FailFast` and `Upload.FullSuccess` state its properties within the run. |
| `Upload.Behaviour` | index.ts:53-107 | The specification of a whole run: usage errors with an empty log, file mode, and directory mode with a rejected or a successful walk. It has no contract; `Upload.Run` is proved equal to it, and the lemmas from `Upload.MissingBucketAborts` to `Upload.ListFailedAborts` state its properties. |
| `Upload.DirLogEnd` | index.ts:100-103 | With k leading successful writes, the loop's log has 2k events plus the failing write of file k when there is one. Otherwise every file completed. |
| `Upload.DirLogShape` | index.ts:100-103 | Let k be the number of leading successful writes. For each i < k the log holds the write of file i under its own path, then its report. Then either the write of file k fails and ends the log with `WriteFailed`, or every file completed. |
| `Upload.UploadFiles` | index.ts:100-105 | The driver loop produces exactly the log of `DriverLog`: the sequential writes, then the summary only if no write failed. |
| `Upload.Run` | index.ts:53-107 | The imperative run produces exactly the log and outcome of `Behaviour`. |
| `Upload.MissingBucketAborts` | index.ts:53-58 | Without a truthy bucket the log is empty: no client and no write. The outcome is `UsageError(MissingBucket)`, and the run's exit code is 1. |
| `Upload.MissingSourceAborts` | index.ts:60-64 | With a bucket but neither flag, the log is empty. The run ends before any client is built or any write happens, and its exit code is 1. |
| `Upload.ListFailedAborts` | index.ts:82-87 | When `readdir` rejects, the log is only the client and the start of the walk. The outcome is `ListFailed(dir)` with exit code 1, and no write or summary happens. |
| `Upload.FileModeWritesOnce` | index.ts:74-80 | File mode builds the client first. It then makes exactly one write, `Write(basename(file), file)`. There is no `ReadDir` and no other write. The report follows exactly when the write succeeds. The run does not depend on `dir` or on the listing. |
| `Upload.DirModeTrace` | index.ts:82-105 | When the walk returns a listing, dir mode logs the client, then the listing. The i-th collected path is written with itself as both key and source, and reported before the next write. It stops at the first failing write. Otherwise the summary reports `CountFiles(entries)`. |
| `Upload.FailFast` | index.ts:100-105 | Suppose writes 0..k-1 succeed and write k fails. Then paths 0..k-1 were reported, the last event is the write of path k, and no summary appears. The outcome is `WriteFailed(path k)` with exit code 1. |
| `Upload.FullSuccess` | index.ts:100-105 | When every write succeeds: the outcome is `Completed` with exit code 0, every path is reported, and the last event is the summary counting the file-typed entries. |

## Left out

- Flag parsing by `meow`, the help and version text, and `cli.showHelp` (index.ts:8-51, 57): a foreign library and its user interface. Flags arrive already parsed as `Flags`.
- The construction of `S3Client` and the S3 protocol behind `client.write` (index.ts:66-72, 77, 101): a network client. Construction is logged as `NewClient` with the flags passed through. A write is one answer of the oracle `ok`.
- `Bun.file` and the file-system walk of `readdir` (index.ts:84-87): I/O. The walk's result is an input, either an arbitrary listing or a rejection; the `ReadDir` event shows that the walk happens. Why the walk fails is not modelled.
- The semantics of `path.basename` (index.ts:76): a foreign call, kept as a parameter.
- `async`/`await` suspension and `process.exit` (index.ts:63, 77, 101): the model runs sequentially, and the exit is an `Outcome` plus `ExitCode`. Bun's exit status for an unhandled rejection is taken to be 1.
- Console message text (index.ts:56, 62, 78, 102, 105): only the reported key and the summary count are logged. The two usage messages are represented by `UsageReason`.
