/**
 The argument checks of the uploader and its choice between single-file and
 directory mode (index.ts:53-82). Every flag is a JavaScript string or
 `undefined`, and the checks use JavaScript truthiness, so an empty string
 counts as absent.
 */
module Dispatch {
  import opened Options

  /** JavaScript truthiness of a string-or-undefined: only a non-empty string is truthy. */
  predicate Truthy(v: Option<string>)
  {
    v.Some? && v.value != ""
  }

  /** `cli.input.at(0)`: the first positional argument, or `undefined` when there is none. */
  function BucketArg(input: seq<string>): Option<string>
  {
    if |input| > 0 then Some(input[0]) else None
  }

  /** The string flags the uploader reads; help and version are handled by the flag parser. */
  datatype Flags = Flags(
    file: Option<string>,
    dir: Option<string>,
    region: Option<string>,
    endpoint: Option<string>,
    accessKeyId: Option<string>,
    secretAccessKey: Option<string>)

  /** The two usage errors: the run stops with exit code 1 before a client is built. */
  datatype UsageReason = MissingBucket | MissingSource

  /** What the validated arguments ask for. */
  datatype Plan =
    | Usage(reason: UsageReason)
    | FileMode(bucket: string, file: string)
    | DirMode(bucket: string, dir: string)

  /**
   `upload`'s own checks (index.ts:61-64) and its branch choice: the file branch
   (index.ts:75) is tried first, so it wins when both flags are set. Its caller
   has already checked that `bucket` is truthy.
   */
  function ChooseMode(bucket: string, flags: Flags): Plan
  {
    if !Truthy(flags.file) && !Truthy(flags.dir) then Usage(MissingSource)
    else if Truthy(flags.file) then FileMode(bucket, flags.file.value)
    // the guard `if (flags.dir)` at index.ts:82 always holds here
    else DirMode(bucket, flags.dir.value)
  }

  /**
   The whole validation: the top-level bucket check (index.ts:53-58), then
   `upload`'s checks. Each plan is chosen exactly when its conditions hold, and
   a chosen mode carries the bucket and the path the user gave, never empty.
   */
  function Resolve(input: seq<string>, flags: Flags): (p: Plan)
    ensures p == Usage(MissingBucket) <==> !Truthy(BucketArg(input))
    ensures p == Usage(MissingSource) <==>
              Truthy(BucketArg(input)) && !Truthy(flags.file) && !Truthy(flags.dir)
    ensures p.FileMode? <==> Truthy(BucketArg(input)) && Truthy(flags.file)
    ensures p.DirMode? <==> Truthy(BucketArg(input)) && !Truthy(flags.file) && Truthy(flags.dir)
    ensures !p.Usage? ==> |input| > 0 && p.bucket == input[0] && p.bucket != ""
    ensures p.FileMode? ==> Some(p.file) == flags.file && p.file != ""
    ensures p.DirMode? ==> Some(p.dir) == flags.dir && p.dir != ""
  {
    var bucket := BucketArg(input);
    if Truthy(bucket) then ChooseMode(bucket.value, flags) else Usage(MissingBucket)
  }

  /** The bucket is checked first: without it, no flag changes the verdict. */
  lemma BucketCheckedFirst(input: seq<string>, flags1: Flags, flags2: Flags)
    requires !Truthy(BucketArg(input))
    ensures Resolve(input, flags1) == Resolve(input, flags2) == Usage(MissingBucket)
  {
  }

  /** File takes precedence: once `file` is truthy, the `dir` flag is irrelevant. */
  lemma FileTakesPrecedence(input: seq<string>, flags: Flags, dir: Option<string>)
    requires Truthy(flags.file)
    ensures Resolve(input, flags) == Resolve(input, flags.(dir := dir))
    ensures Truthy(BucketArg(input)) ==> Resolve(input, flags) == FileMode(input[0], flags.file.value)
  {
  }
}
