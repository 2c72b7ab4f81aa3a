# hub-mirror, modelled in Dafny

hub-mirror copies container images from their public registries into the
operator's Docker Hub namespace. It then writes shell scripts that fetch the
copies back under their original names.

A run does the following:

1. It reads a request object: a list of image references (`hub-mirror`) and an optional custom registry (`custom-registry`).
2. It refuses a list longer than `maxContent`.
3. It builds the Docker client from the environment and refuses empty credentials.
4. It logs in.
5. For every non-empty reference it derives a record `{Source, Target}`:
   - the source is the reference with its first `@sha256` cut out;
   - the target is `<username>/` followed by the source, with every `/` replaced by `.`.
6. It pulls the source, tags it as the target and pushes the target.
7. It appends the record to the result ledger.
8. It refuses an empty ledger.
9. It renders the ledger into the scripts:
   - the pull script (`docker pull <target>`, `docker tag <target> <source>`);
   - with a custom registry, the registry script (`docker tag` / `docker push` to `<registry>/<source>`);
   - the nerdctl script, which pulls from the registry when one is set. Without a registry the nerdctl template is executed over the bare ledger. It has no field `Output`, so the run fails after the pull script is written (see "## Findings"). The model's `Convert` uses the evidently intended nerdctl script instead, which pulls each target from Docker Hub.

Each record contributes a block of two command lines followed by a blank line.

The project has six modules:

- `Names` (names.dfy): the derivation of a record from a requested reference.
- `Scripts` (scripts.dfy):
  - the renderings of the ledger;
  - a reader that parses a rendered script back into its retag steps;
  - the template executions as `main.go` performs them.
- `Mirror` (mirror.dfy): the run itself.
  - `Run` makes the checks and the login.
  - `Convert` runs the transfers, then renders.
  - `Transfer` is the transfer loop.
  - The Docker daemon is a parameter: whether the client could be built, whether the login is accepted, and how each image's transfer ends.
- `Join` (join.dfy): the appends to the shared ledger made by the concurrent transfer workers, as read and write-back steps.
- `Sequences` (sequences.dfy): generic facts about sequences.
- `Wrappers` (wrappers.dfy): `Option` and `Result`.

The blocks end in a blank line, because of how the template trim markers in
`main.go:148-153` work. The model follows the code here.

## Model

| member | source | states |
|---|---|---|
| Names.IndexOf | main.go:84 | The result is -1 exactly when the pattern occurs nowhere. Otherwise it is a position where the pattern occurs, and it occurs at no earlier position. |
| Names.FlattenChars | main.go:90-92 | Replacing `/` by `.` keeps the length. Every character except `/` is kept in place, each `/` becomes `.`, and no `/` is left. |
| Names.RemoveFirst | main.go:88 | Without an occurrence of the pattern the string is kept. Otherwise exactly the pattern's length is cut out. |
| Names.RemoveFirstRestores | main.go:88 | Putting the pattern back at its first occurrence restores the string. |
| Names.Flatten | main.go:90-92 | Replacing `/` by `.` keeps the length. |
| Names.Derive | main.go:84-93 | Without `@sha256` the source is the reference. With it, the source is seven characters shorter than the reference. The target is the namespace, a `/` and one character per source character. |
| Names.DeriveSource | main.go:84-89 | Without `@sha256` the source is the reference unchanged. With it, the source is seven characters shorter, and putting `@sha256` back at the first occurrence restores the reference. |
| Names.DeriveTarget | main.go:90-92 | The target is `<username>/` followed by the source, character by character, with `/` read as `.`. The part after the namespace has no `/`. |
| Names.SourceEmptyIff | main.go:80-89 | A derived source is empty exactly when the reference is empty or is `@sha256` alone. |
| Names.TargetsCanCollide | main.go:90-92 | Two different references can derive the same target. |
| Scripts.Block | main.go:148-238 | A record's block in each of the three shapes (lines 150-151, 187-188, 211-212 and 235-236): `docker pull <target>` / `docker tag <target> <source>`, `docker tag <target> <registry>/<source>` / `docker push <registry>/<source>`, and `nerdctl -n k8s.io pull` / `tag` from `<registry>/<source>` (or `<target>` without a registry). Each block is followed by a blank line. Its shape is stated by `BlockShape`. |
| Scripts.BlockShape | main.go:148-153 | Every block starts with its script's tool (`docker ` or `nerdctl -n k8s.io `) and ends with a blank line. |
| Scripts.Render | main.go:148-153 | A rendered script is empty exactly when the ledger is empty. |
| Scripts.RenderAppend | main.go:148-153 | Rendering distributes over concatenation of ledgers. |
| Scripts.RenderAt | main.go:148-153 | The k-th record's block sits between the rendering of the records before it and the rendering of those after it. |
| Scripts.RenderIsRetags | main.go:148-153 | The pull and nerdctl scripts are exactly the pull/tag stanzas of their retag steps, in ledger order. |
| Scripts.RenderNewlines | main.go:148-153 | For one-line records, every record contributes exactly three lines: two commands and a blank line. |
| Scripts.RetagsRoundTrip | main.go:148-153 | For a one-line tool and one-line retag steps, reading back their rendering gives exactly those steps. |
| Scripts.ScriptParses | main.go:209-214 | A pull or nerdctl script of one-line records reads back as its retag steps. |
| Scripts.PullScriptRecoversLedger | main.go:148-157 | For one-line records, reading back the pull script gives, for each record in order, "pull the target, tag it as the source". |
| Scripts.RenderAll | main.go:141-248 | There is a registry script exactly when a custom registry is set. The pull and nerdctl scripts are both empty exactly when the ledger is empty. |
| Scripts.NerdctlScriptRetags | main.go:209-214 | For one-line records, reading back the nerdctl script gives, per record, "pull `<registry>/<source>`, tag it as the source". Without a registry it gives "pull the target". |
| Scripts.RenderIsPushes | main.go:184-189 | The registry script is exactly the tag/push stanzas of its records' pushes, in ledger order. |
| Scripts.PushesRoundTrip | main.go:184-189 | For one-line pushes, reading back their rendering gives exactly those pushes. |
| Scripts.RegistryScriptPushes | main.go:184-214 | For a custom registry and one-line records, reading back the registry script gives, per record in order, "tag the target as `<registry>/<source>`, push `<registry>/<source>`". That pushed reference is the one the nerdctl script pulls. |
| Scripts.NerdctlMirrorsPullScript | main.go:233-238 | For one-line records and no registry, the nerdctl script performs the same retags as the pull script, in the same order. |
| Scripts.RenderAllAsWritten | main.go:162-248 | As written: with a registry the result is the intended artifacts. Without one, executing the nerdctl template over the bare ledger fails with "can't evaluate field Output". |
| Scripts.NerdctlScriptLostWithoutRegistry | main.go:233-247 | For every non-empty ledger of one-line records, the run as written fails without a registry, while the intended nerdctl script is non-empty and parses. |
| Join.LostUpdate | main.go:95-131 | Two workers that both read the empty ledger before either writes back leave only the second worker's record. |
| Join.LockedIsSchedule | main.go:95-131 | Appends made one at a time, in any completion order of the workers, form a valid schedule of all the workers. |
| Join.LockedAppends | main.go:126-129 | Under a lock, each worker appends exactly its own record, in completion order. |
| Join.PickedPermutation | main.go:126-129 | The records appended depend on the completion order only up to permutation. |
| Join.LockedAppendsKeepEveryRecord | main.go:126-134 | Under a lock, the final ledger is a permutation of all the records, whatever the completion order. Finishing in request order gives exactly the records. |
| Mirror.Run | main.go:42-69 | Each refusal happens in the source's order, with the client operations made so far: too many references (none), no client (building the client only), empty credentials (building the client only), login refused (building the client, login). Past the checks, the run is the login followed by `Mirrored`. |
| Mirror.Convert | main.go:77-248 | The result and client operations are the ones `Mirrored` gives: transfers in entry order up to the first failure, then a transfer failure, the empty-ledger failure, or the ledger with its scripts. |
| Mirror.Transfer | main.go:79-134 | The loop returns the ledger prefix before the first failing transfer and the record that failed, if any. Its client operations are three per completed record plus the failing record's partial sequence. |
| Mirror.Requested | main.go:79-93 | The ledger the run transfers has at most one record per reference. Which records and how many are stated by `RequestedCount` and `RequestedMembers`. |
| Mirror.TransferCalls | main.go:103-122 | A transfer is a pull of the source, then a tag as the target, then a push of the target. A failed pull stops after the pull, a failed tag after the tag. All three calls are made exactly when the push was reached. |
| Mirror.FirstFailure | main.go:103-122 | Every transfer before the returned index completes, and the transfer at the index, if any, fails. |
| Mirror.FirstFailureIs | main.go:103-122 | Any index with only completed transfers before it and a failing one at it (or the end) is `FirstFailure`: the first failure is unique. |
| Mirror.CompletedCallsCount | main.go:103-124 | Completed transfers make three client operations each. |
| Mirror.SuccessfulRun | main.go:79-160 | A successful run's ledger is one completed record per non-empty reference, and is not empty. Its scripts are rendered from it, and the client made three operations per record. |
| Mirror.SuccessfulRunAsWritten | main.go:162-248 | The scripts a successful run reports are what the code as written produces when a custom registry is set. Without one, the code as written fails at the nerdctl template over that same ledger. |
| Mirror.EmptyRun | main.go:136-138 | The run fails with an empty ledger exactly when every reference is empty. Any other failure after the login is a failed transfer. |
| Mirror.RequestedCount | main.go:79-82 | The ledger has one record per non-empty reference: empty references are skipped and nothing else is. |
| Mirror.RequestedMembers | main.go:79-93 | A record is in the ledger exactly when it is derived from some non-empty reference. |
| Mirror.RequestedPermutation | main.go:79-93 | Reordering the references reorders the ledger and changes nothing else. |
| Mirror.EmptySourceOnlyFromBareMarker | main.go:80-89 | A record with an empty source can only come from a reference `@sha256`. |

## Left out

- Docker client calls (`ImagePull`, `ImageTag`, `ImagePush`, `RegistryLogin`, `NewClientWithOpts`) are not modelled. They appear as the abstract `Daemon` parameter and the `Call` log, and the registry's own behaviour is not modelled.
- The copying of pull and push progress to standard output and all `Println`/`Printf` logging are left out.
- Command-line flag parsing and JSON decoding of the request are left out. The model starts from the decoded `Request` and `Settings`, and a malformed request object (a panic in the source) is not modelled.
- The JSON and base64 auth token passed with each push is left out. It does not affect which records are produced.
- File creation and writing are left out. The scripts are strings, and the model does not cover what sits on disk after a panic: in the failing case of the first finding, `output.sh` has already been written and `nerdctl.sh` has been created empty.
- `text/template` itself is not modelled. Each template is modelled by the exact text it emits per record, and by the one execution error it raises. `Scripts.OutputField` and `Scripts.ExecuteOverOutput` are the model's definition of evaluating `.Output` and of ranging over it; what they imply is stated by `Scripts.RenderAllAsWritten`.
- Strings are sequences of characters, not of UTF-8 bytes. `strings.Index` and `strings.Replace` are byte-based, which is the same for the ASCII marker `@sha256`.
- Mirror.Run: the transfers are modelled as running one after another in request order, and the first failure in that order ends the run. In the source, each transfer runs in its own goroutine, and a failing one panics and ends the process while others may be in flight. The model does not cover which sibling transfers had already completed at that moment. The concurrent appends themselves are modelled in `Join`.
- Mirror.Convert: without a custom registry it renders the evidently intended nerdctl script and reports success. The code as written fails at that point (`main.go:244-246`), after the pull script is written. That behaviour is modelled by `Scripts.RenderAllAsWritten` and related to the run by `Mirror.SuccessfulRunAsWritten`.
- Scripts.RenderAll: without a custom registry it gives the corrected nerdctl script, ranging over the ledger itself. The code as written fails there with "can't evaluate field Output" (`main.go:244-246`). That failure is `Scripts.RenderAllAsWritten`.
- Join.LostUpdate: it models the read and the write-back of `append` as two steps. Go's slice aliasing (a write-back into a shared backing array) is not modelled.

## Findings

| source | as written | input that shows it | evidently intended | confidence | as-written member | corrected member |
|---|---|---|---|---|---|---|
| main.go:233-244 | Without a custom registry, the nerdctl template ranges over `.Output` but is executed with the bare ledger slice as dot. The slice has no field `Output`, so execution fails and the run panics after writing the pull script. | `{"hub-mirror":["nginx"]}` with no `custom-registry` | Range over the ledger itself, so the nerdctl script pulls each target and tags it as its source | not executed | Scripts.NerdctlScriptLostWithoutRegistry | Scripts.NerdctlMirrorsPullScript |
| main.go:126-129 | Each transfer goroutine appends to the shared `output` slice without synchronisation. Two workers that read the slice before either writes back lose one record. | Two references whose transfers complete at the same time | Append under a lock, so the ledger holds every completed record exactly once | not executed | Join.LostUpdate | Join.LockedAppendsKeepEveryRecord |
