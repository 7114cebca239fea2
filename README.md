# awsS3client in Dafny

A model of the two pieces of logic inside awsS3client, a command-line tool
that lists, searches, sizes and downloads objects in an S3 bucket through
the AWS SDK:

- **The storage client** (`s3_client.dfy`, module `S3Client`). A `Client`
  object keeps a `selectedBucket` that `SelectBucket` updates. `Download`,
  `ListObjects` and `SearchByKey` build their request records and fall back
  to the selected bucket when the bucket given is null. `ListObjectsV2` is
  the continuation-token loop. It appends each page's `CommonPrefixes` and
  `Contents` to the collected listing, and it stops at the first page that
  is not truncated or at the first error. `ListBuckets` normalises the SDK's
  reply.
- **The command line** (`cli_args.dfy`, module `CliArgs`). `ProcessArgs` and
  `GetArg` form the token scanner over `argv`. They fill the configuration:
  the command, the display unit `sum` and the named parameters. The module
  also holds the five-command table and the required-parameter check that
  `main` does before it calls the client.
- **What the command line prints** (`cli_output.dfy`, module `CliOutput`).
  `Size` scales a byte count to a unit no higher than `sum` and prints it
  twelve characters wide. The `size` command's handler (`TotalSize`) and the
  `list`/`search` command's handler (`ListObjects`) strip the listed path
  from names and add up the sizes.
- `results.dfy` (module `Results`) holds the shared `Option` and `Result` types.

The SDK is replaced by what it answers. A listing backend is a finite
script of page-or-error replies, consumed one per request. The loop also
returns the requests it issued, so the continuation token carried on each
round can be stated. Console output and `process.exit` become return
values. An `ExitStatus` holds the exit code and the lines printed before
the exit, and a handler returns the lines it prints.

Sizes are integers. In the source, each step divides the current value by
1024, which is an exact power-of-two scaling. The model keeps the bytes
and the divisor 1024^k, and the comparison `(size / 1024) > 1` becomes
`bytes > 1024^(k+1)`. `Math.round(n / d)` for `n >= 0` becomes the
integer `(2n + d) / (2d)`.

Behaviour of the code worth knowing, which the model keeps as written:

- The default `sum` is `B` (bin/awsS3Client.js:43). A step scales only
  while the unit differs from `sum`. So when `--sum` is omitted, sizes stay
  in bytes and are not scaled at all. With `--sum K`, `M`, `G` or `T`,
  sizes scale up to that unit. When `sum` names no unit (for example
  `--sum auto`), scaling may go up to `T`.
- The scaling test is strict (`> 1`). So an auto-scaled 1,048,576 bytes
  prints as `1024 K`, not `1 M` (`CliOutput.ExactMebibyteStaysInK`).
- The loop stops on `IsTruncated` being false, not on the absence of a
  continuation token. A truncated page without a `NextContinuationToken`
  sends the next request with no token.
- Only the last ten characters of the padded number are printed. A rounded
  value of more than ten digits loses its leading digits
  (`CliOutput.FixedWidth`).

## Model

| member | source | states |
|---|---|---|
| S3Client.AggregateConcat | src/s3Client.js:143-149 | the aggregate of two runs of pages is the concatenation of their aggregates, list by list, in page order |
| S3Client.AggregateAppend | src/s3Client.js:143-149 | one more page appends exactly its own `CommonPrefixes` and `Contents` to the collected listing; a missing property contributes nothing |
| S3Client.EmptyPageContributesNothing | src/s3Client.js:143-149 | a page that has no prefixes and no contents (absent or empty) leaves the aggregate unchanged wherever it appears |
| S3Client.StopIndex | src/s3Client.js:138-157 | the loop consumes replies up to the first one that is an error or a non-truncated page; every reply before that is a truncated page |
| S3Client.StopIndexAt | src/s3Client.js:151-157 | a stopping reply at `k` with every earlier reply continuing is where the loop stops |
| S3Client.ErrorRejectsListing | src/s3Client.js:138-141 | an error after truncated pages rejects the whole listing with that error; no partial data is resolved, and later replies are never read |
| S3Client.PagesConcatenate | src/s3Client.js:130-157 | when every page is truncated except the last, the listing resolves with the concatenation of all pages' lists |
| S3Client.EmptyListing | src/s3Client.js:130-157 | a single non-truncated page with no entries resolves with two empty lists |
| S3Client.ListObjectsV2 | src/s3Client.js:126-162 | the loop settles with `ListAll` of the script (the error that stopped it, or the aggregate of the pages consumed); it issues one request per reply consumed; the first request is `params`; each later request exists only after a truncated page, and it is `params` with that page's `NextContinuationToken` as `ContinuationToken` |
| S3Client.ListBuckets | src/s3Client.js:65-75 | a rejected call stays rejected with its error; otherwise the result is `Buckets` when present and an array, and the empty list when absent or not an array |
| S3Client.Client.constructor | src/s3Client.js:12-13 | a new client has no selected bucket |
| S3Client.Client.SelectBucket | src/s3Client.js:36-38 | the selected bucket becomes the one given |
| S3Client.Client.BucketFor | src/s3Client.js:47-50 | a call uses the bucket given, or the selected bucket when it is null |
| S3Client.Client.Download | src/s3Client.js:47-58 | the `getObject` request is exactly the effective bucket and `Key: path` |
| S3Client.Client.ListObjectsParams | src/s3Client.js:90-94 | the first grouped-listing request has the effective bucket, `Delimiter: '/'`, `Prefix: path` and no token |
| S3Client.Client.SearchByKeyParams | src/s3Client.js:111-114 | the first search request has the effective bucket, `Prefix: path`, no delimiter and no token |
| S3Client.Client.ListObjects | src/s3Client.js:85-97 | settles with `ListAll` of the script; the first request is `ListObjectsParams`; each later one follows a truncated page and carries its `NextContinuationToken`; every request names the effective bucket, the `/` delimiter and the prefix `path` |
| S3Client.Client.SearchByKey | src/s3Client.js:106-117 | settles with `ListAll` of the script; the first request is `SearchByKeyParams`; each later one follows a truncated page and carries its `NextContinuationToken`; every request names the effective bucket and the prefix `path`, with no delimiter |
| S3Client.SelectThenList | src/s3Client.js:36-38 | after `SelectBucket(b)`, null-bucket listing, search and download requests all use `b` |
| CliArgs.GetArgSpec | bin/awsS3Client.js:90-106 | reading past the end of `argv` exits with -1 and the given message; otherwise the token is returned when its second character being a dash agrees with `checkPrefix`, and `''` when it does not; a token read as a value never starts with `--` |
| CliArgs.Scan | bin/awsS3Client.js:56-77 | every way the scan fails is an exit with -1 and exactly one message |
| CliArgs.ParseArgs | bin/awsS3Client.js:79-82 | parsing succeeds if and only if the scan succeeds with a command from the table, and then yields the scanned configuration; a scan that failed fails the same way; a scan that succeeded but ended without a valid command fails with "Please specify a valid command." and -1 |
| CliArgs.ScanShift | bin/awsS3Client.js:56-77 | the scan of a tail of `a + b` depends only on that tail of `b` |
| CliArgs.ScanSplit | bin/awsS3Client.js:56-77 | a prefix of `argv` that scans successfully ends on a token boundary, so the scan continues on the rest from the configuration it reached |
| CliArgs.AppendFlag | bin/awsS3Client.js:59-73 | `--command V` and `--sum V` set the command or the unit, and `--name V` sets `params[name]`; the value replaces any earlier one, so the last occurrence wins; a value whose second character is `-` is read as `''` and still consumed |
| CliArgs.AppendTrailingFlag | bin/awsS3Client.js:60-61 | a flag in the last position exits with -1 and that flag's "Please specify ..." message |
| CliArgs.AppendIgnored | bin/awsS3Client.js:67-74 | a token that does not start with `--` and does not follow a flag changes nothing |
| CliArgs.ScanStep | bin/awsS3Client.js:57-76 | one step of the scanner: a flag with a following token applies that value and moves two tokens; a flag with nothing after it fails; any other token is skipped |
| CliArgs.ProcessArgs | bin/awsS3Client.js:53-107 | the `while` loop over `cntr` computes exactly `ParseArgs(argv)`, including each of its exits |
| CliArgs.MissingMessages | bin/awsS3Client.js:124-125 | one "Missing required parameter 'p'" line per missing parameter, in order |
| CliArgs.MissingParamsExact | bin/awsS3Client.js:119-127 | a name is reported missing if and only if the command requires it and it was not given |
| CliArgs.ParamValuesInOrder | bin/awsS3Client.js:119-122 | with every required parameter given, the call arguments are their values in the declared order |
| CliArgs.ParamsAppend | bin/awsS3Client.js:119-127 | each required parameter adds its value, or its name to the missing list |
| CliArgs.CollectParams | bin/awsS3Client.js:116-127 | the `forEach` collects the values and the error lines of the specification functions; there are no errors if and only if every required parameter was given |
| CliArgs.RunCli | bin/awsS3Client.js:110-146 | a parse failure exits as parsed; a missing parameter exits with -1 after one line per missing name; otherwise the command's operation is called with `args[i] == params[required[i]]` |
| CliOutput.DigitChar | bin/awsS3Client.js:218 | a digit below ten is the character with that value |
| CliOutput.DecimalString | bin/awsS3Client.js:218 | `toString` of a non-negative integer: one or more decimal digits, with no leading zero |
| CliOutput.DecimalRoundTrip | bin/awsS3Client.js:218 | the printed digits denote exactly the rounded value |
| CliOutput.RoundDiv | bin/awsS3Client.js:218 | `Math.round(n / d)`: the integer `r` with `r <= n/d + 1/2 < r + 1`, so halves round up |
| CliOutput.FixedWidth | bin/awsS3Client.js:218-223 | `print` is twelve characters: the number right-aligned in ten, or only its last ten digits when it is longer, then one space and the unit |
| CliOutput.UnitCap | bin/awsS3Client.js:196-216 | scaling can reach the unit `sum` names, and `T` when `sum` names none |
| CliOutput.ScaleIndex | bin/awsS3Client.js:196-216 | the unit reached is at most the cap; a unit above `B` is reached only by a size of more than one of that unit (`size > 1024^k` bytes), and scaling stops below the cap only when the size is at most one of the next unit (`size <= 1024^(k+1)` bytes) |
| CliOutput.ScaleIndexUnique | bin/awsS3Client.js:196-216 | those three conditions determine the unit reached |
| CliOutput.ScaledSize | bin/awsS3Client.js:195-224 | the unit is one of B/K/M/G/T and `print` is twelve characters; with `sum = 'B'` nothing is scaled; scaling never goes past the unit `sum` names |
| CliOutput.Size | bin/awsS3Client.js:195-224 | the four guarded steps compute `ScaledSize` |
| CliOutput.ExactMebibyteStaysInK | bin/awsS3Client.js:198-206 | when `sum` names no unit, 1,048,576 bytes scales to `K` and prints as 1024 |
| CliOutput.SumSizesConcat | bin/awsS3Client.js:186-188 | the total of two runs of entries is the sum of their totals |
| CliOutput.AggregateTotal | bin/awsS3Client.js:186-188 | the total of an aggregated listing is the sum of each page's total |
| CliOutput.TotalLine | bin/awsS3Client.js:191 | the total line is `Total Size: ` followed by the twelve-character size |
| CliOutput.EmptyTotal | bin/awsS3Client.js:182-192 | with no contents the total is 0, printed as `Total Size:          0 B` |
| CliOutput.TotalSize | bin/awsS3Client.js:182-192 | the handler prints one line: the total of every entry's size (0 when `Contents` is absent) |
| CliOutput.IndexOf | bin/awsS3Client.js:163 | the first position at or after `from` where the pattern occurs, or none when it does not occur |
| CliOutput.RemoveFirstSpec | bin/awsS3Client.js:155 | `replace(path, "")` removes the first occurrence of `path` and nothing else; a name without it is unchanged |
| CliOutput.EntryLinesCount | bin/awsS3Client.js:160-169 | at most one line per entry, and exactly one when no name is empty after stripping |
| CliOutput.EntryStep | bin/awsS3Client.js:161-168 | one more entry adds its size to the total, and adds its line only when its stripped name is not empty |
| CliOutput.PrefixNames | bin/awsS3Client.js:153-158 | one line per common prefix, each with the first occurrence of `path` removed |
| CliOutput.EntryNames | bin/awsS3Client.js:160-169 | the lines of the entries with a non-empty stripped name, and the total of every entry's size, including the entries not printed |
| CliOutput.ListObjects | bin/awsS3Client.js:150-172 | the handler prints the prefix lines, then the entry lines, then the total line over all contents |

## Left out

- The AWS SDK (`new AWS.S3()`, `listObjectsV2`, `getObject`, `listBuckets`) and the `RunAws` wrapper (src/s3Client.js:27, 171-193) are foreign calls. They become a script of replies; `Download` and `ListBuckets` are modelled as the request they send and the reply they normalise.
- Promises and callbacks, including the self-recursive `CallS3`, are modelled as a sequential loop. The source never settles on a reply sequence that stays truncated forever. Such a script is excluded by `requires Terminates(script)`.
- `Object.create` (src/s3Client.js:26) is replaced by a plain class with the `selectedBucket` field and the constant delimiter.
- The source writes the continuation token into the caller's `params` object. The model keeps the request as a value, so that mutation is not visible to the caller.
- `SaveObject` (bin/awsS3Client.js:228-237) is left out: it is filesystem I/O (`existsSync`, `mkdirSync`, `writeFileSync`) together with Node's `path.parse`/`path.join`. `config.localPath` is used only there.
- The `buckets` handler (bin/awsS3Client.js:175-179) is left out; it only prints each bucket's name to the console.
- The dispatch `s3Client[command.s3](...params).then(command.handler, Error)` (bin/awsS3Client.js:129-143) and the unused `CallHandler` are left out. `CliArgs.RunCli` ends at the `Invoke` outcome, which names the operation, the handler and the arguments.
- `console.log`/`console.error` and `process.exit` become returned lines and `ExitStatus` values. The exit code is kept as -1, as the source passes it.
- CliOutput.Size: IEEE doubles are not modelled. Sizes are natural numbers, so values above 2^53 are exact, and `toString`'s exponent form for values of 1e21 or more is not produced.
- CliArgs.GetArgSpec: tokens are sequences of Unicode scalar values, while `substr(1, 1)` reads the second UTF-16 code unit. The two differ on a token whose first character lies outside the Basic Multilingual Plane: for `--path 😀-x` the source stores `😀-x` (its second code unit is a low surrogate), while the model reads the value as `''`. String lengths and `replace` positions are likewise counted in characters, not code units.
- CliArgs.ApplyFlag: `params` is a map from names to strings. JavaScript's inherited keys on a plain object (such as `__proto__`) are not modelled.
- CliOutput.ListObjects and CliOutput.TotalSize take `CommonPrefixes`/`Contents` as options, as the handlers test `hasOwnProperty`. A listing from `ListObjectsV2` always has both properties.
