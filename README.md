# create_index, modelled in Dafny

create_index is a small Rust command-line program (`src/main.rs`). It reads a `;`-delimited text file in which field 4 of every line holds an embedding as a JSON array of floats, and it loads each accepted vector into a usearch approximate-nearest-neighbour index. It then saves the index to disk. The program makes two passes over the file:

- `setup_store` builds the index, counts the lines that decoded and reserves that many slots.
- `main` numbers the decoded lines with `enumerate`, hands them to rayon workers and adds each accepted vector under its line's ordinal.

This project models the program's own logic and proves properties of it:

- **Flags** (`flags.dfy`): the command-line record `Args` and the case-insensitive decision chains `Args::metric_kind` and `Args::scalar_kind`. As written, `scalar_kind` reads the `--metric` flag. Also the `IndexOptions` that `setup_store` actually builds: always cosine over F32, whatever the flags say.
- **Records** (`records.dfy`): the record rule of the ingestion closure. It splits on `;` (modelled as `str::split`, with the split/join round trip proved both ways) and takes field 4. It decodes that field with a JSON decoder given as a parameter, and accepts the vector only when it has exactly the literal 192 elements. The four outcomes form a datatype: `Inserted`, `ParseFailure` (one diagnostic), `WrongLength` (silent) and `TooFewFields` (the panic of `fields[4]`).
- **Lines** (`lines.dfy`): what `read_lines(..).flatten()` yields, and the first-pass counting loop of `setup_store`. An input is `None` when the file cannot be opened. Otherwise it is the sequence of per-line read results, where `None` is a line that failed to decode.
- **VectorIndex** (`vector_index.dfy`): the usearch index as the program uses it. It is a class with a capacity, a key-to-vector map and the snapshot written by `save`.
- **Ingest** (`ingest.dfy`): the specification of the ingestion pass.
  - `Entries` gives the map from ordinal to vector. `Diagnostics` and `SilentDrops` count the two kinds of rejection. `FirstShort` gives the first line that would panic.
  - The ingestion loops are proved against these functions.
  - `ScheduleIndependent` proves that the order in which the per-line adds happen does not change the index contents.
  - `setup_store`, `main` and the minutes computation are modelled here too.

The help text of `--vector-length`, `--metric` and `--scalar` suggests that these flags configure the index. The model follows what the code does:

- The length check ignores `--vector-length` and uses the literal 192 (`src/main.rs:108`). With `--vector-length 2`, a two-element vector is dropped, not indexed (`Ingest.ThreeLineRun`).
- The index options ignore `--metric` and `--scalar` (`src/main.rs:70-71`). `metric_kind` and `scalar_kind` are never called.
- A line with fewer than five fields is not treated as a parse failure. `fields[4]` panics, so the run ends before `save` (`Ingest.Run`, case `Panicked`).

## Model

| member | source | states |
|---|---|---|
| Flags.DefaultArgs | src/main.rs:20-33 | the command line with every optional flag at its default value: output "index.usearch", vector length 192, metric "cos", scalar "f32" |
| Flags.ToLower | src/main.rs:38 | lowercases the flag character by character; the result has the same length and no capital letter left (its use in comparisons is stated by Flags.ToLowerEquals) |
| Flags.MetricKindOf | src/main.rs:37-43 | `metric_kind`: a metric flag that is not three characters long always gives IP (the full characterisation is Flags.MetricKindSpellings) |
| Flags.ScalarKindFromFlag | src/main.rs:46-58 | the if-chain of `scalar_kind` over one flag: a flag longer than three characters always gives F32 (the full characterisation is Flags.ScalarKindSpellings) |
| Flags.ScalarKindOf | src/main.rs:44-59 | `scalar_kind` as written, the chain applied to `--metric`: a metric flag longer than three characters always gives F32 (its other properties are Flags.ScalarKindIgnoresScalarFlag and Flags.CosineMetricGivesF32) |
| Flags.IntendedScalarKind | src/main.rs:44-59 | the corrected `scalar_kind`, the chain applied to `--scalar`: a scalar flag longer than three characters gives F32 (fully characterised by Flags.IntendedScalarKindFollowsScalarFlag) |
| Flags.OptionsFor | src/main.rs:67-76 | the `IndexOptions` literal of `setup_store`; its contract is stated by Flags.OptionsIgnoreFlags |
| Flags.ToLowerEquals | src/main.rs:38-39 | comparing the lowercased flag with a word that has no capitals holds exactly when each character is that word's character or its capital: a case-insensitive comparison |
| Flags.MetricKindSpellings | src/main.rs:37-43 | `metric_kind` gives `Cos` exactly for the case-insensitive spellings of "cos" and `IP` for every other string, the empty string included |
| Flags.ScalarKindSpellings | src/main.rs:44-59 | the chain gives F16 exactly for "f16"/"16", F64 for "f64"/"64", B1 for "b1"/"1" and I8 for "i8"/"8", in any case, and F32 for every other string |
| Flags.ScalarKindIgnoresScalarFlag | src/main.rs:44-45 | as written, `scalar_kind` does not depend on the `--scalar` field at all |
| Flags.CosineMetricGivesF32 | src/main.rs:44-59 | as written, any spelling of the metric "cos" (the default) makes `scalar_kind` return F32 |
| Flags.ScalarFlagHasNoEffect | src/main.rs:44-45 | `--scalar f16` with the default metric yields F32 as written, and F16 under the corrected reading |
| Flags.IntendedScalarKindFollowsScalarFlag | src/main.rs:44-59 | the corrected `scalar_kind` follows the spellings of the `--scalar` field and does not depend on `--metric` |
| Flags.OptionsIgnoreFlags | src/main.rs:67-76 | the index options are cosine, F32, connectivity and both expansions 0, single-vector, and dimensions = `--vector-length`; changing `--metric` or `--scalar` does not change them |
| Flags.MetricFlagNotApplied | src/main.rs:37-43 | `--metric ip` makes `metric_kind` answer IP, yet the options the index is built with say Cos |
| Records.Split | src/main.rs:101 | splitting yields one more field than the line has `;`, and no field contains `;` |
| Records.JoinSplit | src/main.rs:101 | joining the fields of a split with `;` gives back the line |
| Records.SplitJoin | src/main.rs:101 | splitting `;`-free fields joined by `;` gives back exactly those fields |
| Records.Classify | src/main.rs:101-111 | a vector that is inserted always has exactly 192 elements |
| Records.RecordRule | src/main.rs:101-111 | a line is short (the `fields[4]` panic) exactly when it has fewer than four `;`; otherwise it is a parse failure exactly when field 4 does not decode, is inserted exactly when field 4 decodes to 192 values, and is otherwise dropped with its actual length |
| Records.ClassifyColumns | src/main.rs:101-110 | for a line built from five or more `;`-free columns, the outcome depends only on how column 4 decodes and on its length being 192 |
| Lines.Flatten | src/main.rs:84 | flattening never yields more lines than were read |
| Lines.FlattenMembers | src/main.rs:84 | a line is kept exactly when some read result successfully decoded to it |
| Lines.FlattenKeepsAll | src/main.rs:84 | nothing is dropped exactly when every line decoded |
| Lines.Decoded | src/main.rs:83-84 | what one pass over the input sees: nothing when the file cannot be opened, and every line when every read succeeded (membership is stated by Lines.FlattenMembers) |
| Lines.CountDecodedLines | src/main.rs:82-85 | the first-pass count is the number of lines that decoded, and 0 when the file cannot be opened |
| Ingest.Entries | src/main.rs:98-110 | every key of the ingested map is an ordinal of a decoded line, and there are at most as many entries as decoded lines |
| Ingest.Diagnostics | src/main.rs:104-105 | there are at most as many diagnostics as decoded lines |
| Ingest.SilentDrops | src/main.rs:107-110 | there are at most as many silent drops as decoded lines |
| Ingest.FirstShort | src/main.rs:101-102 | the ordinal of the first line that panics: every line before it has a field 4, and the line at it (if any) does not |
| Ingest.EntriesAt | src/main.rs:98-110 | key k is in the map exactly when decoded line k is accepted by the record rule, and it then maps to that line's vector |
| Ingest.Accounting | src/main.rs:84-111 | when no line is short, entries + diagnostics + silent drops = the number of decoded lines (the precount), so the adds never exceed the precount |
| Ingest.ExtendByOne | src/main.rs:104-111 | one more decoded line: a parse failure adds no entry and exactly one diagnostic; a wrong length adds neither; an accepted line adds its vector under its ordinal and no diagnostic |
| Ingest.ThreeLineRun | src/main.rs:98-111 | valid, malformed and three-element lines: one diagnostic, the three-element line dropped silently, and key 0 present only when line 0's vector has 192 elements |
| Ingest.AddInOrderAt | src/main.rs:98-109 | after adding in any dispatch order, key k is present exactly when k was dispatched and line k is accepted, with line k's vector |
| Ingest.AddInOrder | src/main.rs:98-109 | the index contents after the workers add the lines in a given dispatch order: only ordinals that were dispatched and exist are keys (fully characterised by Ingest.AddInOrderAt) |
| Ingest.ScheduleIndependent | src/main.rs:98 | any dispatch order that covers every ordinal gives the same map as the sequential run, because keys are fixed by `enumerate` before dispatch |
| Ingest.IngestRecord | src/main.rs:101-111 | the closure for one line returns the record rule's outcome and adds that line's vector under its key, with one `add` call logged, exactly when the outcome is `Inserted` |
| Ingest.IngestDecoded | src/main.rs:98-113 | processing stops at the first short line (reported as a panic); the index then holds exactly `Entries` of the lines processed, and the diagnostics count their parse failures; the index's log of `add` calls (`addedKeys`) holds exactly the keys of the index, one call per entry, strictly increasing (so pairwise distinct) and below the precount, so there are at most as many adds as precounted lines |
| Ingest.IngestLines | src/main.rs:97-114 | the same for the second reading of the file, including the tie between the log of `add` calls and the index keys, and nothing at all when the file cannot be opened |
| Ingest.SetupStore | src/main.rs:62-90 | the index is built with `OptionsFor(args)`, is empty with no `add` calls yet, and its reserved capacity equals the count of decoded lines |
| Ingest.Minutes | src/main.rs:115-116 | the reported minutes are the whole minutes in the elapsed milliseconds, truncated, so a run under a minute reports 0 |
| Ingest.Run | src/main.rs:92-127 | the reserved capacity is the precount; the keys in the index's log of `add` calls are the keys of the index, one call per entry, pairwise distinct, below the precount and no more numerous than it; on a short line the run panics and never saves; otherwise it saves to `--output` exactly `Entries` of the decoded lines and reports entries + diagnostics + silent drops = precount |
| VectorIndex.Index.constructor | src/main.rs:79 | a new index holds the given options, no entries, no reserved capacity and an empty log of `add` calls |
| VectorIndex.Index.Reserve | src/main.rs:86 | reserving sets the capacity and leaves the entries and the log of `add` calls unchanged |
| VectorIndex.Index.Add | src/main.rs:109 | adding stores the vector under the key, appends the key to the log of `add` calls, and changes nothing else |
| VectorIndex.Index.Save | src/main.rs:122-125 | saving records the path together with the entries at that moment, and leaves the entries and the log of `add` calls unchanged |

## Left out

- Command-line parsing by clap (`Args::parse`, the derive attributes, the second parse in `main`): `Args` is a plain record, and one value serves both calls. The defaults the attributes declare are still reproduced by `Flags.DefaultArgs`.
- File I/O (`read_lines`, `File::open`, `BufReader::lines`): the input is a parameter. Both passes are given the same value, since the model assumes the file does not change between them.
- Lines.CountDecodedLines, Ingest.IngestLines, Ingest.Run: the input is a finite sequence of read results, so both passes always end. `BufReader::lines` keeps yielding `Err` while a read error persists, and `flatten` then never ends. For example, `--input` naming a directory opens on Linux, every read fails with EISDIR, and the first pass at `src/main.rs:84` loops forever. The model does not capture such a non-terminating pass.
- JSON decoding by serde_json and the `f32` values: the decoder is a parameter from text to an optional sequence, and vector elements have an abstract type, because only success and length matter.
- Parallel dispatch by rayon (`par_bridge`): ingestion is sequential, and `Ingest.ScheduleIndependent` covers any order of the per-line adds. Concurrent access inside usearch is not modelled.
- Ingest.IngestDecoded, Ingest.IngestLines: both require an empty index, the only state in which `main` reaches the second pass; they say nothing about ingesting into a non-empty index.
- Ingest.Run: after a panic, it says only that nothing is saved. Under rayon, the lines other workers have already handled at that moment depend on timing. The model's sequential run simply stops at the first short line.
- usearch internals (`new_index`, `reserve`, `add`, `save`, `hardware_acceleration`): the index is a map with a capacity. Failures of `new_index(..).unwrap()` and `reserve(..).unwrap()` (which abort the run) are not modelled. Neither are the ignored `Result`s of `add` and `save`, or what `add` does with a vector whose length differs from the index dimension.
- The `OnceLock` singleton: the index object is passed explicitly. `STORE.get()` always succeeds after `setup_store`.
- Timing (`Stopwatch`) and all `println!` text: the elapsed milliseconds are a parameter of `Run`. Of the printed output, only the number of parse-failure diagnostics is modelled.
- Flags.ToLower, Flags.ToLowerEquals: `str::to_lowercase` is modelled on ASCII letters only, so non-ASCII characters are left unchanged. No non-ASCII character lowercases to one of the matched words (KELVIN SIGN becomes `k`, and U+0130 becomes `i` followed by U+0307), so the metric and scalar decisions are the same for every input.
- Integer widths: `usize` counters and keys and the `a as u64` cast are unbounded naturals. No realistic file reaches their limits, and the cast is lossless on 64-bit targets. The elapsed time is a natural number, because the stopwatch is monotonic.

## Findings

| source | as written | input that shows it | evidently intended | confidence | as-written member | corrected member |
|---|---|---|---|---|---|---|
| src/main.rs:45 | `scalar_kind` lowercases `self.metric`, so the `--scalar` flag is never read | `--scalar f16` with the default `--metric cos` gives F32 | lowercase `self.scalar`, so that `--scalar f16` gives F16 | not executed; high (a copy of line 38), but without effect on a run, because `setup_store` never calls `scalar_kind` | Flags.ScalarKindOf | Flags.IntendedScalarKind |

`Flags.ScalarFlagHasNoEffect` exhibits the discrepancy. `Flags.IntendedScalarKindFollowsScalarFlag` proves the intended property of the corrected member. Both share the decision chain `Flags.ScalarKindFromFlag`. Neither reading feeds the index options, which are always F32 (`Flags.OptionsIgnoreFlags`).
