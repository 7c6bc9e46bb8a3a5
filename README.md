# Waveform-generator drivers and instrument server, modelled in Dafny

This project models the core of a laboratory-automation server. Two instrument drivers
are in scope: the Keysight/Agilent 33600A and the Siglent SDG6022X arbitrary-waveform
generators. They sit behind a small registry that a remote controller calls by device
name and command name.

What is modelled:

- **Command builders.** Every `A33Configure*` method, `A33OutputOnOff`, and the
  `SDG60*` configuration functions of the core each build one SCPI command string and
  write it once. Each is a function that returns the pieces of the command in the order
  the source appends them. A builder either succeeds, or returns the Python exception it
  would raise before writing anything: a missing key, a number format applied to a
  string, or an unhashable dictionary key. The validation bounds of the 33600A methods
  (pydantic `Field` and `ChannelType`) are `requires` clauses.
- **Binary uploads.** The IEEE 488.2 definite-length block header (section 7.7.6 of
  IEEE 488.2) and the int16 and float32 payloads are modelled, with a parser that reads
  them back. The 33600A upload has a bounded retry loop with its timeout handling, and
  a long waveform is split into chunks stored in consecutive ARB memories.
- **Operations that talk to the instrument more than once.** These are methods over an
  `Instrument` class. Its fields are:
  - a trace of every call, stamped with the VISA timeout in force when it was made;
  - the current timeout;
  - a script of replies, each an answer or an exception.

  Each method is proved against a function of the replies it is given. The properties
  are lemmas about that function.
- **The registry and the dispatcher.** These are the module-level `devices` dictionary,
  `get_public_commands`, `register_device` and `handle_tcp`. They are a `Registry`
  class and functions on maps.

Files:

| file | contents |
|---|---|
| `python.dfy` | decoded JSON values, `kwargs.get`, `kwargs[...]`, truthiness, `==` against integer literals, numeric `format`, `str(int)`, `upper`, `strip`, and the exceptions these raise |
| `scpi.dfy` | command pieces, the block header and its parser, the int16 and float32 payloads |
| `visa.dfy` | the scripted instrument; calls made in order until one raises |
| `agilent33600a.dfy` | the 33600A builders |
| `agilent33600a_upload.dfy` | `_upload_custom_waveform_dac_binary`, `load_split_and_upload_dac`, `A33LoadARB` |
| `sdg6022x.dfy` | the SDG6022X builders |
| `sdg6022x_io.dfy` | `SDG60ReadParameters`, `SDG60Initialize`, `SDG60RefClock`, `upload_custom_waveform` |
| `core.dfy` | `devices`, `get_public_commands`, `register_device`, `handle_tcp` |

The server code reads `devices[instr].commands`, but none of the modelled files
(`core/__init__.py`, `core/Server.py` and the two drivers) assigns a `commands` attribute;
`core/Registry.py`, which `Equipment/sdg6022x.py:9` imports, is not part of this model.
The command table of a device is therefore taken to be what `get_public_commands`
computes from its bound methods. The `register_command` decorator
(from `core.Registry`) is not part of this model and is taken as the identity.

## Model

| member | source | states |
|---|---|---|
| `Python.Item` | Equipment/sdg6022x.py:224-227 | `kwargs[key]` succeeds exactly when the key is present, with its value; otherwise it raises KeyError naming the key |
| `Python.FormatNumber` | Equipment/sdg6022x.py:155 | a numeric format spec succeeds exactly on numbers, bools included, and formats their value; a string raises ValueError |
| `Python.Strip` | Equipment/sdg6022x.py:382 | `strip()` never lengthens the text, and what it leaves neither starts nor ends with white space |
| `Python.StripLeftSuffix` | Equipment/sdg6022x.py:382 | stripping the left leaves the suffix after a run of white space |
| `Python.StripRightPrefix` | Equipment/sdg6022x.py:382 | stripping the right leaves the prefix before a run of white space |
| `Python.StripSlice` | Equipment/sdg6022x.py:382 | `strip()` leaves a slice of the text with only white space before and after it |
| `Python.ParseNatToString` | Equipment/agilent33600A.py:67-68 | the decimal text of a byte count reads back as that count |
| `Python.NatToStringLength` | Equipment/agilent33600A.py:68-69 | `len(str(n)) <= k` exactly when `n < 10**k` |
| `Scpi.BlockHeader` | Equipment/agilent33600A.py:67-69 | the header starts with `#` and has at least three characters |
| `Scpi.BlockHeaderSingleDigit` | Equipment/agilent33600A.py:68-69 | the digit-count field is a single character exactly when the byte count is below 10**9 |
| `Scpi.BlockHeaderShape` | Equipment/agilent33600A.py:67-69 | below 10**9 bytes the header is `#`, one digit d giving the number of digits, then d digits of the count; all ASCII |
| `Scpi.BlockRoundTrip` | Equipment/agilent33600A.py:67-76 | for a payload below 10**9 bytes, a receiver that parses header, payload and trailing bytes gets back exactly the payload and the trailing bytes |
| `Scpi.IntToStringAscii` | Equipment/agilent33600A.py:68-69 | decimal text is ASCII, so `encode("ascii")` of the header cannot raise |
| `Scpi.CharsAscii` | Equipment/agilent33600A.py:71-74 | the ASCII encoding of a command decodes back to the command |
| `Scpi.Wrap16` | Equipment/agilent33600A.py:60 | the int16 cast lands in [-32768, 32767] and leaves in-range samples unchanged |
| `Scpi.Int16Payload` | Equipment/agilent33600A.py:61 | `tobytes()` of an int16 array is two bytes per sample |
| `Scpi.Int16BytesRoundTrip` | Equipment/agilent33600A.py:60-61 | the two little-endian bytes of a sample decode to the sample after the int16 cast |
| `Scpi.Int16PayloadRoundTrip` | Equipment/agilent33600A.py:60-61 | decoding the whole payload gives back every sample after the int16 cast |
| `Scpi.Float32Payload` | Equipment/sdg6022x.py:93-94 | the float32 payload is four bytes per sample, the bytes of sample i at positions 4i..4i+3 |
| `Visa.Instrument.Perform` | Equipment/agilent33600A.py:83-95 | one transport call: it is appended to the trace with the timeout in force, and it consumes the next scripted reply and returns it |
| `Visa.Instrument.SetTimeout` | Equipment/agilent33600A.py:64-65 | assigning `timeout` changes the timeout and nothing else |
| `Visa.Instrument.Step` | Equipment/sdg6022x.py:417-427 | the next call of a sequence that stops at the first exception leaves the trace and the replies of the longer sequence |
| `Visa.TryCallsPrefix` | Equipment/sdg6022x.py:417-427 | the calls made are a non-empty prefix of those asked for; all of them are made unless one raised, and stopping short means one raised |
| `Visa.TryCallsAppend` | Equipment/sdg6022x.py:417-427 | when the first part of a sequence raises, the rest is never started; otherwise the rest runs on the replies left over |
| `Agilent33600A.ConfigureAm` | Equipment/agilent33600A.py:133-156 | every clause of the AM command is addressed to `SOUR<channel>` |
| `Agilent33600A.AmInternalClauses` | Equipment/agilent33600A.py:146-154 | `AM:INT:FUNC` and `AM:INT:FREQ` are sent exactly when the source is INT (index 0); `AM:STAT`, `AM:DEPT` and `AM:DSSC` always are |
| `Agilent33600A.ArbSelectionAsWritten` | Equipment/agilent33600A.py:171-176 | as written, a positive ARB number gives a selection clause that ends in the literal text `:.0f;:` |
| `Agilent33600A.ArbSelectionAsWrittenExample` | Equipment/agilent33600A.py:172 | for ARB memory 5 the written clause selects `ARB5:.0f`, which differs from the intended selection |
| `Agilent33600A.ArbSelection` | Equipment/agilent33600A.py:171-176 | a positive number selects memory `ARB<n>`, the name the DAC upload stores under; otherwise it selects the stored file `ARBF<abs(n)>.ARB` |
| `Agilent33600A.ConfigureArb` | Equipment/agilent33600A.py:159-187 | every clause of the ARB command is addressed to `SOUR<channel>`; its selection clause is the corrected `ArbSelection` (see Findings) |
| `Agilent33600A.ArbPhaseClause` | Equipment/agilent33600A.py:176-185 | the ARB command starts with the selection clause; `PHASE:ARB` is sent exactly when -360 <= phase < 360, so within the validated range only phase 360 loses it |
| `Agilent33600A.ConfigureBurst` | Equipment/agilent33600A.py:190-213 | every clause of the burst command is addressed to `SOUR<channel>` |
| `Agilent33600A.BurstDisabled` | Equipment/agilent33600A.py:211-212 | a disabled burst writes exactly `SOUR<ch>:BURS:STAT OFF` |
| `Agilent33600A.BurstStateLast` | Equipment/agilent33600A.py:210 | an enabled burst command always ends with `SOUR<ch>:BURS:STAT ON` |
| `Agilent33600A.BurstModeClauses` | Equipment/agilent33600A.py:201-208 | gated bursts send gate polarity and internal period and no cycle count; triggered bursts send start phase and cycle count and no gate polarity |
| `Agilent33600A.ConfigureFm` | Equipment/agilent33600A.py:216-240 | every clause of the FM command is addressed to `SOUR<channel>` |
| `Agilent33600A.FmClauses` | Equipment/agilent33600A.py:228-238 | disabled FM sends only `FM:STAT OFF`; `FM:INT:FUNC` and `FM:INT:FREQ` are sent exactly when FM is on with the INT source |
| `Agilent33600A.ConfigureFSweep` | Equipment/agilent33600A.py:256-265 | an enabled sweep sends state, spacing, time, start, stop, hold and return time in that order; a disabled one sends only `:SWE<ch>:STAT OFF;` |
| `Agilent33600A.FSweepCommand` | Equipment/agilent33600A.py:267 | the sweep command goes out with no lower-case letter, and with the same length as the command built |
| `Agilent33600A.ConfigurePulse` | Equipment/agilent33600A.py:270-283 | period, width, leading and trailing edge in that order, all addressed to `SOUR<channel>` |
| `Agilent33600A.ConfigureTrigger` | Equipment/agilent33600A.py:286-304 | source, slope, delay, timer and level in that order, all addressed to `TRIG<channel>` |
| `Agilent33600A.ConfigureWfm` | Equipment/agilent33600A.py:307-335 | every clause of the waveform command is addressed to `SOUR<channel>` |
| `Agilent33600A.WfmClauses` | Equipment/agilent33600A.py:316-333 | `VOLT` is left out exactly for DC and `PHASE` exactly for NOIS and DC; exactly one rate clause is sent, the noise bandwidth, PRBS bit rate or frequency that the waveform selects |
| `Agilent33600A.OutputOnOff` | Equipment/agilent33600A.py:349-365 | load, polarity, mode and state in that order, all addressed to `OUTP<channel>`; the state clause is `OUTP<ch> ON;` or `OFF;` as asked |
| `Agilent33600A.ConfigurePrbs` | Equipment/agilent33600A.py:381-389 | data then transition; the data clause names the sequence `PN<n>` for the validated non-negative n |
| `Agilent33600A.ConfigureRamp` | Equipment/agilent33600A.py:392-398 | one symmetry clause addressed to `SOUR<channel>` |
| `Agilent33600A.ConfigureSquare` | Equipment/agilent33600A.py:401-407 | one duty-cycle clause addressed to `SOUR<channel>` |
| `Agilent33600AUpload.DacCommandAscii` | Equipment/agilent33600A.py:71-74 | the DAC command is ASCII, so its encoding cannot raise, and it decodes back to itself |
| `Agilent33600AUpload.DacMessageRoundTrip` | Equipment/agilent33600A.py:67-76 | below 5 * 10**8 samples, the message is the command's bytes followed by a block that parses back as exactly the int16 payload |
| `Agilent33600AUpload.TryUploadCases` | Equipment/agilent33600A.py:81-108 | an attempt writes the block, asks `*OPC?`, then asks `SYST:ERR?`; the first call that raises ends it, recording the exception text; otherwise it succeeds exactly when the error queue answers `+0,"No error"`, and records the answer when not |
| `Agilent33600AUpload.UploadWritesOnce` | Equipment/agilent33600A.py:83 | every attempt writes the block exactly once, whichever call raises |
| `Agilent33600AUpload.RetryWriteCount` | Equipment/agilent33600A.py:79-108 | the loop writes the block once per attempt and never more than `max_attempts` times; a success makes at least one attempt and a failure uses up all of them |
| `Agilent33600AUpload.RetrySuccessIsFirst` | Equipment/agilent33600A.py:97-101 | on success the loop stopped at the first successful attempt, after every earlier attempt failed |
| `Agilent33600AUpload.RetryFailureAllFail` | Equipment/agilent33600A.py:102-108 | when the loop fails, every one of its attempts failed; a raised exception counts as a failed attempt |
| `Agilent33600AUpload.RetryFailureLastError` | Equipment/agilent33600A.py:103-114 | a failed loop reports the error recorded by its last attempt |
| `Agilent33600AUpload.RetryUploadIsRetry` | Equipment/agilent33600A.py:79-108 | the loop the methods run is the generic retry loop over one upload attempt |
| `Agilent33600AUpload.AttemptUpload` | Equipment/agilent33600A.py:81-108 | one pass of the `try` block: its success, its error text, the calls it traces and the replies it consumes are those of the attempt, and the timeout is unchanged |
| `Agilent33600AUpload.RetryTurn` | Equipment/agilent33600A.py:80-108 | one turn of the loop at the upload timeout: success ends the run, and failure leaves the rest of the run to the remaining attempts with this attempt's error |
| `Agilent33600AUpload.RetryLoop` | Equipment/agilent33600A.py:79-108 | the loop traces exactly the retry run's calls at 60000 ms, consumes its replies, and reports its success and last error |
| `Agilent33600AUpload.UploadDacBinary` | Equipment/agilent33600A.py:43-114 | every upload call is made at 60000 ms; the old timeout is back in force afterwards on both paths; failure raises RuntimeError naming `max_attempts` and the last error; `max_attempts <= 0` raises without any call |
| `Agilent33600AUpload.FloorDiv` | Equipment/agilent33600A.py:471 | Python's `//`, which floors; for a positive divisor it agrees with division |
| `Agilent33600AUpload.SliceIndex` | Equipment/agilent33600A.py:474 | a slice bound is clamped into the array, and an in-range bound is kept |
| `Agilent33600AUpload.Chunks` | Equipment/agilent33600A.py:471-474 | one chunk per `i` in `range(num_chunks)`, chunk i being `waveform[i*cs:(i+1)*cs]` |
| `Agilent33600AUpload.ChunkCountIsCeiling` | Equipment/agilent33600A.py:471 | for a positive chunk size the number of chunks is the ceiling of total / chunk_size, and is zero only for an empty waveform |
| `Agilent33600AUpload.ChunkShape` | Equipment/agilent33600A.py:474 | for a positive chunk size, every chunk holds between 1 and chunk_size samples and is the i-th run of the waveform |
| `Agilent33600AUpload.ChunksFlatten` | Equipment/agilent33600A.py:473-474 | the chunks, put back together in order, are the waveform |
| `Agilent33600AUpload.LoadText` | Equipment/agilent33600A.py:450-462 | a file loads exactly when `np.loadtxt` reads it into a one-dimensional array, giving its samples; otherwise ValueError |
| `Agilent33600AUpload.LoadWaveform` | Equipment/agilent33600A.py:450-465 | an array is used as given; a file or path that cannot be read, or that is not one-dimensional, raises ValueError |
| `Agilent33600AUpload.LoadWaveformAsWritten` | Equipment/agilent33600A.py:450-467 | as written, a `str` path raises IndexError at `shape[0]`; every other input loads as in `LoadWaveform` |
| `Agilent33600AUpload.PathNameNeverLoads` | Equipment/agilent33600A.py:450-467 | a path to a readable one-dimensional file raises IndexError as written, while the corrected loader yields its samples |
| `Agilent33600AUpload.ChunkMessageAt` | Equipment/agilent33600A.py:474-483 | the message of chunk i uploads `waveform[i*cs:(i+1)*cs]` under ARB index start + i |
| `Agilent33600AUpload.TryUploadBlocks` | Equipment/agilent33600A.py:81-90 | whichever call raises, one attempt writes its binary block exactly once |
| `Agilent33600AUpload.RetryUploadBlocks` | Equipment/agilent33600A.py:79-108 | the retry loop writes only its own chunk's block, and at least once when it succeeds |
| `Agilent33600AUpload.InOrderCons` | Equipment/agilent33600A.py:473-483 | one chunk's blocks followed by the later chunks' blocks in order are in order from that chunk |
| `Agilent33600AUpload.UploadChunksInOrder` | Equipment/agilent33600A.py:473-483 | the blocks written are the chunk messages in order from the first chunk, chunk j (the message for ARB index start + j, `ChunkMessageAt`) written one or more times before chunk j + 1; the batch succeeds only when the last chunk was written, and otherwise fails with a RuntimeError |
| `Agilent33600AUpload.UploadNextChunk` | Equipment/agilent33600A.py:474-484 | uploading chunk i either ends the batch with that chunk's failure, or leaves the rest of the batch to chunks i + 1 onwards |
| `Agilent33600AUpload.UploadEachChunk` | Equipment/agilent33600A.py:471-484 | the loop over the chunks traces and consumes exactly what the batch specification does, and returns its result |
| `Agilent33600AUpload.UploadSplit` | Equipment/agilent33600A.py:467-484 | the split-and-upload of a loaded waveform is the batch over its chunks, with ten attempts each |
| `Agilent33600AUpload.LoadSplitAndUploadDac` | Equipment/agilent33600A.py:426-484 | loading with the corrected `LoadWaveform` (a `str` path is read like an open file; see Findings), a load error, or a chunk size of 0, raises before anything is sent; otherwise the trace, the replies left and the result are those of the batch; the timeout ends as it began |
| `Agilent33600AUpload.LoadArb` | Equipment/agilent33600A.py:410-423 | the load command is written at the old timeout and the answer is read at 60000 ms; after a successful read the old timeout is restored and the answer returned; if the read raises, the timeout stays at 60000 ms |
| `Sdg6022x.FormatPart` | Equipment/sdg6022x.py:562 | a formatted `KEY,value` part fails exactly when the value is not a number |
| `Sdg6022x.TriggerSource` | Equipment/sdg6022x.py:575-582 | the source is INT unless the request says 1 (EXT) or 2 (MAN); in gated mode MAN becomes EXT; an unhashable value raises TypeError |
| `Sdg6022x.PolarityParts` | Equipment/sdg6022x.py:586-597 | PLRT exactly in gated mode, EDGE exactly in triggered mode with the EXT source |
| `Sdg6022x.TimeParts` | Equipment/sdg6022x.py:604-615 | TIME exactly in triggered mode, as `INF` for an infinite burst and the cycle count otherwise |
| `Sdg6022x.PeriodParts` | Equipment/sdg6022x.py:620-628 | PRD exactly for the INT source, except in gated infinite bursts; formatting it fails only when it is sent and the period is not a number |
| `Sdg6022x.BurstDisabled` | Equipment/sdg6022x.py:547-558 | a disabled burst writes exactly `C<ch>:BTWV STATE,OFF`, whatever else the request holds |
| `Sdg6022x.BurstErrors` | Equipment/sdg6022x.py:560-628 | an enabled burst fails exactly when the start phase, the delay or a period that is sent is not a number, or when the source cannot be looked up |
| `Sdg6022x.BurstClauses` | Equipment/sdg6022x.py:588-628 | TIME only when triggered; PRD only for INT and not gated infinite; PLRT only when gated; EDGE only when triggered from EXT |
| `Sdg6022x.BurstFrame` | Equipment/sdg6022x.py:550-631 | an enabled burst starts with `STATE,ON` and ends with `TRMD,OFF`; a triggered one carries its TIME part; a gated one asked for MAN is sent `TRSR,EXT` |
| `Sdg6022x.ConfPrbs` | Equipment/sdg6022x.py:145-174 | head, BITRATE or PERI, AMP, OFST, LENGTH, DIFFSTATE, EDGE in that order; it fails exactly when a value formatted as a number is not one |
| `Sdg6022x.PrbsRateExclusive` | Equipment/sdg6022x.py:153-157 | exactly one of BITRATE and PERI is sent, as `bit_rate_period` selects |
| `Sdg6022x.OptionalPartsOk` | Equipment/sdg6022x.py:205-209 | the loop over `param_map` fails exactly when a value that is present is not a number |
| `Sdg6022x.PresentInOrder` | Equipment/sdg6022x.py:205-206 | the entries sent are listed in `param_map` order, and each one has its key present |
| `Sdg6022x.PresentComplete` | Equipment/sdg6022x.py:205-206 | every `param_map` entry whose key is present is sent |
| `Sdg6022x.OptionalPartsKeys` | Equipment/sdg6022x.py:205-209 | every part the loop appends carries a SCPI key of `param_map` |
| `Sdg6022x.OptionalPartsValues` | Equipment/sdg6022x.py:205-209 | the parts appended are, in order, one `SCPI_KEY,value` per present entry, with that entry's value |
| `Sdg6022x.OptionalPartsFailureSticks` | Equipment/sdg6022x.py:205-209 | once a prefix of the loop raises, the whole loop raises the same exception |
| `Sdg6022x.ConfStdWfm` | Equipment/sdg6022x.py:177-214 | the loop builds exactly the standard-waveform parts: head, rate, then the optional parameters |
| `Sdg6022x.AppendPresent` | Equipment/sdg6022x.py:205-209 | the loop appends the optional parts to what was already built, or stops with their exception |
| `Sdg6022x.StdWfmRate` | Equipment/sdg6022x.py:184-191 | FRQ follows the head exactly in frequency mode (the default) with `freq` given; PERI exactly outside it with `period` given |
| `Sdg6022x.ItemPart` | Equipment/sdg6022x.py:224-227 | a `kwargs[key]` part succeeds exactly when the key is present with a number; a missing key raises KeyError for it |
| `Sdg6022x.OptionalPart` | Equipment/sdg6022x.py:244-251 | an optional part is sent exactly when its key is present |
| `Sdg6022x.PulseCore` | Equipment/sdg6022x.py:220-242 | a pulse always sends five parts, starting with the head |
| `Sdg6022x.Pulse1Levels` | Equipment/sdg6022x.py:229-237 | without `amp` or without `offset` the pulse is never written; with a good rate part, a missing `amp` raises KeyError('amp') |
| `Sdg6022x.PulseEdgesKeys` | Equipment/sdg6022x.py:244-251 | RIS, FALL and EDGE are each sent exactly when their key is present |
| `Sdg6022x.Pulse1Keys` | Equipment/sdg6022x.py:218-255 | a configured pulse never sends HLEV or LLEV, and sends RIS, FALL and EDGE exactly when their keys are present |
| `Sdg6022x.AtLeast` | Equipment/sdg6022x.py:263 | `v >= 1e6` works exactly on numbers and compares their value |
| `Sdg6022x.LoadPolarityAsWritten` | Equipment/sdg6022x.py:259-273 | as written, a request without `Impedance` raises KeyError('Impedance') |
| `Sdg6022x.LoadPolarity` | Equipment/sdg6022x.py:259-273 | the load is `HZ` from 1 MOhm up and otherwise the impedance given, 50 by default; PLRT is added when `polarity` is given |
| `Sdg6022x.LoadPolarityDefault` | Equipment/sdg6022x.py:263-266 | without `Impedance` the written function fails where the intended one sends `LOAD,50`; with it, the two agree |
| `Sdg6022x.BandwidthPart` | Equipment/sdg6022x.py:446 | the band-limit part fails exactly when the bandwidth is not a number |
| `Sdg6022x.ConfNoise` | Equipment/sdg6022x.py:430-452 | head, STDEV, MEAN, then `BANDSTATE,OFF` or the bandwidth; the bandwidth is only formatted, and so can only fail, when the band limit is on |
| `Sdg6022x.Truncate` | Equipment/sdg6022x.py:348 | `int(x)` truncates toward zero |
| `Sdg6022x.BuiltinIndex` | Equipment/sdg6022x.py:335-348 | names are looked up in `BUILTIN_MAP` after upper-casing, and unknown names give 0; an integer is used as it is; anything that is neither a string nor a number raises |
| `Sdg6022x.BuiltinNamesCaseInsensitive` | Equipment/sdg6022x.py:338-345 | a name and its upper-case form select the same index, which is 0 or one of the table's |
| `Sdg6022x.SelectArbitraryWfm` | Equipment/sdg6022x.py:302-355 | nothing is written without either key; a user ARB number always writes; only a `builtin_index` that is neither a string nor a number fails |
| `Sdg6022x.UserArbPrecedence` | Equipment/sdg6022x.py:321-334 | with `user_arb_number` present, `builtin_index` is irrelevant, whether absent or any value, and the user ARB is selected by name |
| `Sdg6022xIo.ReadOne` | Equipment/sdg6022x.py:371-392 | one query writes its command first, makes two or three calls, and stores a stripped value; when its write or its read raises it stores "ERROR" and its last call is `clear()` |
| `Sdg6022xIo.ReadAll` | Equipment/sdg6022x.py:368-392 | the sweep makes two or three calls per group; an exception never stops it |
| `Sdg6022xIo.ReadAllResults` | Equipment/sdg6022x.py:364-395 | exactly the queried groups get an entry, and every entry is free of surrounding white space |
| `Sdg6022xIo.ReadAllWrites` | Equipment/sdg6022x.py:368-375 | whatever the replies, one query command is written per group, in list order, and nothing else is written |
| `Sdg6022xIo.ReadOneAnswered` | Equipment/sdg6022x.py:371-382 | a query whose write and read are answered stores the stripped answer |
| `Sdg6022xIo.ReadAllAnsweredCalls` | Equipment/sdg6022x.py:368-382 | when every call is answered the sweep is write, read per group, with no `clear()` |
| `Sdg6022xIo.ReadAllAnswered` | Equipment/sdg6022x.py:368-382 | when every call is answered, each group holds the stripped answer to its own read |
| `Sdg6022xIo.ReadAllEntry` | Equipment/sdg6022x.py:368-392 | each group holds the value stored by its last query: the later queries of other groups leave it as it was right after that query |
| `Sdg6022xIo.ReadAllRaised` | Equipment/sdg6022x.py:384-392 | a group whose last query raised on its write or its read holds "ERROR" |
| `Sdg6022xIo.ReadQuery` | Equipment/sdg6022x.py:371-392 | the loop body: it stores the query's value and traces its calls |
| `Sdg6022xIo.ReadNext` | Equipment/sdg6022x.py:368-392 | one turn of the loop takes the sweep from the groups before to the next one |
| `Sdg6022xIo.ReadParameters` | Equipment/sdg6022x.py:359-395 | it returns the sweep's results over BSWV, MDWV, SWWV, BTWV, SRATE for the requested channel, and traces its calls |
| `Sdg6022xIo.OutputCallsAt` | Equipment/sdg6022x.py:417-424 | one output command per channel, in channel order |
| `Sdg6022xIo.InitCallsShape` | Equipment/sdg6022x.py:412-427 | both outputs are set to the same state, on exactly when `OUTPUT_ENABLED` is true and off when it is missing; the reset is last |
| `Sdg6022xIo.Initialize` | Equipment/sdg6022x.py:412-427 | the writes stop at the first exception, which is raised; otherwise all three are made |
| `Sdg6022xIo.RefClockCalls` | Equipment/sdg6022x.py:127-141 | the source is set first; after the state is read, the keys are pressed exactly when the state differs from the one asked for, and the state is read again |
| `Sdg6022xIo.TogglesBool` | Equipment/sdg6022x.py:136-139 | with a boolean `ref_out`, the toggle happens exactly when the presence of `10MOUT,ON` in the answer differs from it |
| `Sdg6022xIo.AdjustReferenceOut` | Equipment/sdg6022x.py:134-141 | once the state is read, the rest of the calls are the toggle when due and the final query |
| `Sdg6022xIo.RefClock` | Equipment/sdg6022x.py:127-141 | the calls, the replies consumed and the result are those of the reference-clock run, stopping at the first exception |
| `Sdg6022xIo.WaveMessageRoundTrip` | Equipment/sdg6022x.py:93-109 | below 2.5 * 10**8 samples, the message is the command text followed by a block that parses back as the float32 payload, four bytes per sample |
| `Sdg6022xIo.UploadCustomWaveform` | Equipment/sdg6022x.py:87-113 | a non-ASCII command raises before anything is sent; otherwise it sends the block, then `*WAI`, then `C<ch>:ARWV NAME,<name>`, stopping at the first exception |
| `Core.PublicCommandsNames` | core/__init__.py:13-17 | a name is in the command table exactly when it is public (no leading `_`) and a member has it |
| `Core.PublicCommandsEntry` | core/__init__.py:13-17 | each public member is in the table under its own name, with its own method |
| `Core.GetPublicCommands` | core/__init__.py:6-17 | the loop builds exactly the public command table |
| `Core.Forwarded` | core/Server.py:6-9 | the forwarded keyword arguments are the request without `cmd` and `instr`; every other key is passed unchanged |
| `Core.Resolve` | core/Server.py:7-9 | a missing `cmd` or `instr`, an unknown device or an unknown command raises KeyError, in that order; success finds the command under `cmd` in the table of the device under `instr` |
| `Core.Dispatch` | core/Server.py:9-14 | a request that does not resolve fails and calls nothing; otherwise the reply is 'Operation complete' exactly when the command returned None (or that text), else the command's own result; its exceptions pass through |
| `Core.Registry.constructor` | core/__init__.py:3 | the registry starts empty |
| `Core.Registry.RegisterDevice` | core/__init__.py:19-22 | `*IDN?` is asked first; if it raises nothing is stored; otherwise the instance is stored under `name`, replacing any earlier one, and every other entry is unchanged |
| `Core.Registry.HandleTcp` | core/Server.py:5-14 | the reply is the dispatch of the decoded request, and the registry is not changed |

## Left out

- The VISA transport (pyvisa and pylablib) is not modelled as such. It is the scripted `Instrument`. Every call takes one scripted reply, and an exhausted script raises like a VISA timeout. Line terminators appended by the transport are not modelled.
- `time.sleep` and `print` are left out: they change no state the model observes. So is the 20-second wait after an `*OPC?` answer other than `1`.
- Float formatting (`#.12g`, `.15E`, `#.4f`, ...) and `str()` of floats, lists and dictionaries are uninterpreted functions in `Formats`. Float values are `real`, with no rounding.
- The IEEE 754 float32 encoding is a given per-sample function. `tobytes()` is taken in little-endian host order.
- `np.loadtxt` parsing is left out. A file input is modelled by what it yields: a failure, or an array of some dimension. The ValueError texts leave out the `{data}` and shape interpolations.
- An array passed to `load_split_and_upload_dac` is taken as a one-dimensional sequence of integers. A `str` path is modelled by `PathName`; see Findings.
- NumPy 2 raises OverflowError when an out-of-range Python int is cast to int16. This is not modelled: `Wrap16` models the wrap-around of an integer array cast.
- The variables `counter` and `name` in `load_split_and_upload_dac` are computed but never used, so they are left out.
- pydantic validation failures (ValidationError on out-of-range arguments) are not modelled: the bounds are `requires`.
- `json.loads` is left out: `handle_tcp` starts from the decoded request. A request that is not a JSON object is not modelled.
- `inspect.getmembers` is a given list of named bound methods, sorted and without duplicates.
- Core: a driver method's effect on its instrument is not modelled. Dispatch sees only the method's result or exception.
- `main.py` is not part of this model: its ZeroMQ loop, and its `ERROR {e}` reply to exceptions at main.py:51.
- The threaded TCP simulator in `Equipment/Test_instrument.py` is not part of this model.
- The other driver functions are not part of this model:
  - the 33600A functions `A33ArbPhaseSync`, `A33ClearArbitrary`, `A33Initialize`, `A33PhaseSync`, `A33ReadError` and `A33Trg`;
  - the SDG6022X functions `SDG60ModulationOff`, `SDG60Trg`, `SDG60SelectChannel`, `SDG60ReadArbitraryWFMQ`, `SDG60ConfArbWaveform3`, `SDG60OutputOnOff` and `SDGTestFunc`;
  - the `set_*`/`get_*` helpers, except the three that `SDG60RefClock` calls;
  - the commented-out Streamlit UI and the `__main__` blocks.
- `upper()` is modelled for ASCII letters only. `strip()` uses the full set of characters `str.isspace()` holds of.
- `SDG60ConfPulse1` and `SDG60LoadPolarity` declare a positional parameter named `kwargs`. They are modelled as taking that dictionary. Through `handle_tcp` it would have to arrive under the key `kwargs`.
- Sdg6022x.SelectArbitraryWfm: the 3-second wait after selecting a user ARB, and the printed error for a missing argument, are left out.
- Agilent33600AUpload.LoadSplitAndUploadDac: loads with the corrected `LoadWaveform`, so a `str` path is read like an open file, where the code as written raises IndexError at `waveform.shape[0]` before any call (third Findings row, `LoadWaveformAsWritten`).
- Agilent33600A.FSweepCommand: states that the command is upper case and has the command's length, not its exact text, because the formatted numbers are uninterpreted.
- Agilent33600A.ConfigureAm: its own contract states only that every clause is addressed to the channel; which clauses are sent is stated by AmInternalClauses.
- Agilent33600A.ConfigureArb: its own contract states only that every clause is addressed to the channel; which clauses are sent is stated by ArbPhaseClause. It builds the intended selection `ArbSelection`, not the as-written `ArbSelectionAsWritten` (see Findings).
- Agilent33600A.ConfigureBurst: its own contract states only that every clause is addressed to the channel; which clauses are sent is stated by BurstDisabled, BurstStateLast and BurstModeClauses.
- Agilent33600A.ConfigureFm: its own contract states only that every clause is addressed to the channel; which clauses are sent is stated by FmClauses.
- Agilent33600A.ConfigureWfm: its own contract states only that every clause is addressed to the channel; which clauses are sent is stated by WfmClauses.
- The `SDG60ConfPulse1` branches that would send HLEV and LLEV read the very key whose absence selected them, so they always raise KeyError (`Pulse1Levels`, `Pulse1Keys`). What those branches were meant to send cannot be told from the code, so no corrected version is modelled.

## Findings

| source | as written | input that shows it | evidently intended | confidence | as-written member | corrected member |
|---|---|---|---|---|---|---|
| Equipment/agilent33600A.py:172 | `f'{arb_number}:.0f'` puts the format spec outside the braces | `arb_number = 5` selects `ARB5:.0f`, a memory nothing stores under (the DAC upload stores under `ARB5`) | `f'{arb_number:.0f}'`, selecting `ARB5` | high; not executed | `Agilent33600A.ArbSelectionAsWritten` (with `Agilent33600A.ArbSelectionAsWrittenExample`) | `Agilent33600A.ArbSelection` |
| Equipment/sdg6022x.py:263-266 | the comparison reads `kwargs.get('Impedance', 50)`, but the finite-load branch reads `kwargs['Impedance']` with no default | a request without `Impedance` raises KeyError('Impedance') instead of sending `LOAD,50` | the finite branch formats the same defaulted value, sending `LOAD,50` | medium; not executed | `Sdg6022x.LoadPolarityAsWritten` (with `Sdg6022x.LoadPolarityDefault`) | `Sdg6022x.LoadPolarity` |
| Equipment/agilent33600A.py:448-467 | a `str` has no `read`, so it reaches `np.asarray(data)`, which makes a zero-dimensional array, and `waveform.shape[0]` raises IndexError | `data = "wave.txt"`, which the type hint at line 426 and the docstring at lines 438-439 allow | the path is read like an open file, then checked to be one-dimensional | medium; not executed | `Agilent33600AUpload.LoadWaveformAsWritten` (with `Agilent33600AUpload.PathNameNeverLoads`) | `Agilent33600AUpload.LoadWaveform` |
