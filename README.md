# DataFile: the data-access layer of SpyKING CIRCUS, in Dafny

This project models `DataFile`, the generic class of circus/files/datafile.py through
which every step of the spike-sorting pipeline reads a multichannel recording of shape
`(time_samples, N_tot)`. The model covers four groups of behaviour:

- **Construction.** An empty file is refused for a non-writable format. The file
  extension is checked against the format's list, or not at all when the list is `None`.
  The keyword overrides are then set, and whichever of `rate`, `N_e` and `N_tot` is
  still missing is read from `[data]`. After that the caches are wiped, and the
  backend's header hook runs only when the file is not empty.
- **Lazily cached derived values.** `N_t` is the detection window in samples and is
  always odd. `dist_peaks` and `template_shift` come from it, and `get_safety_time`
  uses the same duration.
- **Chunk planning.** `analyze` and `_get_chunk_size_`.
- **Snippet reads.** `get_snippet` is the template-level helper that forwards one
  `get_data` call.

It also models `_check_requierements_`, which fills a format's declared fields.

Modules, one per concern:

- `Wrappers`: Option and Result.
- `Errors`: the error values that stand for the source's exceptions and `sys.exit` calls.
- `Params`: the parameter file as a map from `(section, key)` to a typed value, read
  through `get`, `getint`, `getfloat` and `getboolean`.
- `Paths`: `os.path.splitext` and ASCII `str.upper`.
- `Requirements`: `_check_requierements_`.
- `Window`: the `N_t` computation.
- `Chunks`: `analyze` and the `get_data`/`get_snippet` arguments.
- `DataFiles`: the `DataFile` class.

The class keeps the source's mutable fields. The resolved parameters, `_shape`,
`_max_offset` and the four cache fields are plain fields that the methods assign. Two
ghost fields record what cannot be seen from the fields alone:

- `consulted`: the configuration keys the lazy properties have read.
- `infoCalls`: how often `_get_info_` has run.

The loops of the source stay loops. `CheckRequirements` is the loop of
`_check_requierements_` and `ResolveRequired` is the loop over `requiered_values`. Each
is proved equal to a recursive specification (`Complete`, `FillAll`), and the lemmas are
about those specifications.

On these points the model follows the code:

- The window length truncates `rate*N_t*1e-3` (`int(...)`). It does not round.
- The extension test accepts the listed spellings and their all-upper-case forms only.
  `.Dat` is refused for `.dat`.
- The `auto` safety time is the window duration in milliseconds floor-divided by 3. It
  is not a sample count.
- `template_shift` is not cached. A `_template_shift` override passed to the constructor
  is erased, because the caches are reset after the overrides are applied.
- The three parameters come from an override when one is given, else from the parameter
  file. The generic class has no header step before that.
- The padding of `get_data` is read as in its docstring (datafile.py:205-206): offsets
  added to the chunk's two ends. So `get_snippet(t, len)` covers samples `[t, t+len)`.

## Model

| member | source | states |
|---|---|---|
| `Requirements.CheckRequirements` | circus/files/datafile.py:5-26 | the loop that mutates the keyword dictionary returns exactly the visit `Complete` of the declared fields in order, including the first failing field's error |
| `Requirements.CompleteKeepsPresent` | circus/files/datafile.py:7-8 | a key already among the keyword arguments is kept with its value |
| `Requirements.CompleteAddsOnlyDeclared` | circus/files/datafile.py:7-21 | every key of the result was given or is a declared field |
| `Requirements.CompleteFailsIff` | circus/files/datafile.py:9-25 | the completion fails if and only if some declared field is absent and can be filled neither from its default nor by a lookup of its type |
| `Requirements.CompleteFieldAt` | circus/files/datafile.py:10-21 | on success an absent declared field holds the value its default or lookup gave, and stays absent when its type name is unknown |
| `Requirements.CompleteFieldValue` | circus/files/datafile.py:7-21 | for each declared field: present keys kept; a non-None default wins; otherwise the `[data]` value read as int, float, string or bool by its declared type; an unknown type leaves the key unset |
| `Paths.SplitExt` | circus/files/datafile.py:98 | root and extension concatenate to the path; a non-empty extension starts at the last dot, has no further dot or '/', and follows a non-dot character of the last component |
| `Paths.SplitExtExamples` | circus/files/datafile.py:98 | `/rec/data.dat` splits off `.dat`; a dot in a directory name or a leading dot gives no extension |
| `Paths.SplitExtFindsExtension` | circus/files/datafile.py:98 | when the last path component has a '.' after a character that is not a dot, the extension is found, and it is the text from the last '.' on |
| `DataFiles.ExtensionAcceptedIff` | circus/files/datafile.py:100-101 | an extension passes if and only if it equals some listed spelling or that spelling in upper case |
| `DataFiles.AcceptedUnlistedHasNoLower` | circus/files/datafile.py:101 | an accepted extension that is not listed is the upper-case form of a listed one and contains no lower-case letter, so a mixed-case spelling is accepted only when it is listed |
| `DataFiles.ExtensionExamples` | circus/files/datafile.py:100-104 | `.dat` and `.DAT` pass for `[".dat"]`; `.Dat` and `.xyz` do not; with no list every extension passes |
| `DataFiles.BadExtensionExample` | circus/files/datafile.py:98-104 | constructing `rec.xyz` for a format listing `.dat` fails with a bad-extension error |
| `DataFiles.EmptyNotWritableRejected` | circus/files/datafile.py:93-96 | an empty file of a non-writable format is refused, before and regardless of every other check |
| `DataFiles.ExtensionChecked` | circus/files/datafile.py:98-104 | an extension not accepted is refused with its own error; a format without a list skips the test |
| `DataFiles.ResolveOutcome` | circus/files/datafile.py:93-119 | construction succeeds if and only if both validations pass and each of rate, N_e, N_tot has an override or a well-typed `[data]` entry; each parameter is its override when given, else `sampling_rate` (float), `N_e` (int), `N_total` (int) |
| `DataFiles.FillAllSetsAll` | circus/files/datafile.py:113-119 | a completed resolution leaves all three parameters set |
| `DataFiles.DataFile.constructor` | circus/files/datafile.py:60-66 | a new object carries the class defaults: shape (0, 0), max offset 0, no parameters, no caches |
| `DataFiles.DataFile.ApplyOverrides` | circus/files/datafile.py:110-111 | each supplied override replaces its attribute and nothing else changes |
| `DataFiles.DataFile.Require` | circus/files/datafile.py:114-119 | one parameter step: kept when set, else read with its type, or the lookup's error with nothing changed |
| `DataFiles.DataFile.ResolveRequired` | circus/files/datafile.py:113-124 | the loop over the three required values ends in the state `FillAll` gives, or with its first error |
| `DataFiles.DataFile.ResetCaches` | circus/files/datafile.py:127-130 | the four caches are empty afterwards |
| `DataFiles.DataFile.GetInfo` | circus/files/datafile.py:179-184 | the header hook runs once per call |
| `DataFiles.DataFile.Initialize` | circus/files/datafile.py:110-135 | after the validations: the parameters end as `FillAll` resolves them from the overrides and the parameter file, or its first error is returned; on success the object is valid, keeps the shape and offset overrides, has every cache empty and has run `_get_info_` once exactly when the file is not empty |
| `DataFiles.DataFile.Create` | circus/files/datafile.py:89-135 | fails exactly as `Resolve` says, with its error; otherwise a fresh valid object with the resolved parameters, shape and offset overrides kept, every cache empty (cache overrides included), no lookups yet, and `_get_info_` run once exactly when the file is not empty |
| `DataFiles.DataFile.NT` | circus/files/datafile.py:137-151 | returns the window length the configuration gives, which is odd; on first access it consults `[detection] N_t`, then `[data] N_t` only if that failed, and caches the result; once cached it returns it without consulting anything |
| `DataFiles.NTStable` | circus/files/datafile.py:138-140 | two consecutive `N_t` accesses return the same value; after a success the value is cached, and the only keys consulted are those of the first access when nothing was cached before |
| `DataFiles.DataFile.DistPeaks` | circus/files/datafile.py:153-155 | `dist_peaks` is the window length, obtained through `N_t`: with nothing cached it consults the duration keys and caches the window on success; once cached nothing is consulted |
| `DataFiles.DataFile.TemplateShift` | circus/files/datafile.py:157-162 | the `_template_shift` attribute when set; otherwise `2*shift + 1 == N_t`, failing exactly when `N_t` fails; the shift itself is never cached; without the attribute, an uncached `N_t` is computed through the duration keys and cached as `2*shift + 1` on success |
| `DataFiles.DataFile.GetSafetyTime` | circus/files/datafile.py:165-176 | a missing `[key] safety_time` fails; for "auto" the result is a whole number with `3*r <= duration_ms < 3*r + 3`, failing when both duration lookups fail; otherwise the entry read as a number, failing when it is not one |
| `DataFiles.SafetyTimeInMilliseconds` | circus/files/datafile.py:167-174 | with "auto" and a 3 ms window the safety time is 1, whatever the sampling rate |
| `DataFiles.DataFile.Analyze` | circus/files/datafile.py:239-246 | an explicit chunk size is used as given; otherwise `[data] chunk_size`, failing when it is missing; the result is the chunk plan of `shape[0]` and depends on nothing else |
| `Window.Trunc` | circus/files/datafile.py:147 | `int()`: the integer towards zero within distance less than one of the value |
| `Window.WindowLength` | circus/files/datafile.py:147-149 | the window length is odd, is the truncated sample count or one more, and is at least 1 when `rate*duration >= 0` |
| `Window.DurationKeys` | circus/files/datafile.py:142-145 | `[detection] N_t` is consulted first, and `[data] N_t` is consulted second exactly when the first lookup fails; no other key is consulted |
| `Window.DurationFallback` | circus/files/datafile.py:142-145 | a readable `[detection] N_t` decides the duration; when it fails, the duration is the `[data] N_t` lookup, value or error; so it fails only when both lookups fail |
| `Window.WindowLengthExample` | circus/files/datafile.py:147-149 | 20 kHz and 1 ms give 20 samples, corrected to 21, with template shift 10 |
| `Window.WindowLengthTruncates` | circus/files/datafile.py:147 | 21.8 samples give 21, not the 23 that rounding would give |
| `Chunks.FloorDiv` | circus/files/datafile.py:240 | numpy floor division: the quotient brackets the dividend for either sign of the divisor, and is 0 for a zero divisor |
| `Chunks.ChunkPlanCovers` | circus/files/datafile.py:239-246 | for a positive chunk size: last length is `shape0 % c`; count is `shape0 / c` plus one when the last is partial; `count*c >= shape0`; `(count-1)*c < shape0` when `shape0 > 0`; `0 <= last < c` |
| `Chunks.ChunkPlanExact` | circus/files/datafile.py:240-246 | the full chunks plus the last chunk's length add up to exactly `shape0` |
| `Chunks.ChunkPlanZeroSize` | circus/files/datafile.py:240-244 | a zero chunk size yields a single chunk holding the whole recording |
| `Chunks.ChunkPlanExamples` | circus/files/datafile.py:239-246 | (1000, 300) gives (4, 100); (900, 300) gives (3, 0) |
| `Chunks.GetSnippet` | circus/files/datafile.py:212-219 | a snippet read is `get_data(0, length, (time, time), nodes)` and covers exactly samples `[time, time + length)` of the given nodes |
| `Chunks.ChunkReadsCover` | circus/files/datafile.py:239-246 | for a positive chunk size every sample `t` of the recording lies in the unpadded read span of exactly one chunk, `t / chunk_size`, and that chunk is among the `nb_chunks` that `analyze` counts |
| `Chunks.LastChunkRead` | circus/files/datafile.py:239-246 | the last counted chunk starts inside the recording and reaches its end, and its part inside the recording is `last_chunk_len` long, or a whole chunk when that is 0 |

## Left out

- `get_data`, `set_data`, `open`, `close` and `allocate` have empty bodies in the generic class. Only the `get_snippet` to `get_data` forwarding is modelled, as the arguments of the call.
- `_get_info_` has an empty body. It is modelled as a counted hook; no header is read.
- `_display_requierements_`, `print_and_log` and `print_error` produce diagnostics only. They are left out, together with the `description` argument of `_check_requierements_`, which only those messages use.
- `is_master` (the MPI rank) only gates those diagnostics, so it is left out.
- The `sys.exit(0)` calls and the uncaught exceptions become error values. The `sys.exit(0)` calls end the process with status 0. The exceptions that `getint`, `getfloat`, `get` and `float()` raise (datafile.py:116, 118, 145, 166, 172, 176, 192) are not caught, so they end it with a traceback and a non-zero status. The model does not distinguish the two.
- The empty-file branch crashes while formatting its message, because `extension` is not yet assigned at that point. It is modelled as the error the branch intends.
- Keyword overrides are a typed record: the three parameters, `_shape`, `_max_offset` and the four cache attributes. Other attributes a caller could inject, and class-level attributes a subclass could declare, are not modelled.
- Floating point is exact real arithmetic: `1e-3` is the real 0.001 and `int()` truncates exactly. IEEE rounding and the `numpy.int64` width are not modelled.
- configparser text is not parsed. An entry is stored as the typed value its text reads as. Option-name case folding, interpolation and `float("inf")` are not modelled.
- `str.upper` is modelled on ASCII letters only.
- `Paths.SplitExt` models the POSIX `os.path.splitext`: '/' is the only separator. The Windows flavour, with '\\' separators and drive letters, is not modelled.
- `parallelWrite` is carried in the format record. Nothing in this file uses it.
