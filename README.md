# Sound classification app: a Dafny model of its data and inference core

This project models the logic of the sound classification app (dcleres/sound_classification_app) and
proves properties of that logic. It covers four parts:

- **The AudioSet downloader's transcode engine** (`Data/AudioSet/audio_set_utils.py`):
  - `run_command` and `validate_audio`;
  - the `ffmpeg` driver, with its retry loop, its per-failure recovery (delete the output, retry, fix `-t`) and its silent exhaustion.

  The driver is a `while` loop that updates the two option lists in place, as `array`s. It is proved equal to a step function `Drive`, and the retry properties are lemmas about `Drive`.
- **Segment preparation** (`Data/AudioSet/download_data.py`):
  - the label-overlap predicates;
  - the millisecond file name;
  - clipping a segment to the video's length;
  - the expected-audio record and the ffmpeg option lists;
  - when `download_yt_video` gives a path and when it gives nothing.
- **The Android recogniser's array logic** (`SpeechActivity.java`):
  - the recording buffer as a class with the source's fields;
  - the bounded append of each chunk read;
  - the 2-second inference window;
  - the transposing copy into a 256×256 buffer;
  - the argmax and max scans.
- **The training-data loader** (`SoundClassification/DataProcessing/load_data.py`):
  - three overlapping windows per recording;
  - zero-padding MFCC matrices to 256×256;
  - labels that line up with samples;
  - the early-stop accumulation loop in `build_train_array`;
  - the speech/silence/singing concatenation.

How the model stands in for the outside world:

- **External effects are parameters.**
  - What the ffmpeg process returns on each attempt, and what it leaves at the output path, is a sequence of `Run` values.
  - What `pafy` resolves is a `fetch` function.
  - The MFCC transform is a function value.
  - Each recorded chunk is a sequence of samples.
- **Numbers.** Times, durations and the training recordings' samples are exact `real`s. The Android recorder's samples are 16-bit integers (`Short`), and its inference window is exact `real`s.
- **Python version.** The Python code is read as Python 3 before 3.10, where `collections.Iterable` (`Data/AudioSet/audio_set_utils.py:38`) still exists.
- **Float text.** `float(str)` and `str(float)` are an abstract `FloatCodec` pair, and the only thing required of it is that it round-trips.
- **Python built-ins.** The ones the code relies on are in module `Builtins`: `str(int)`, `int(float)` truncation, `rstrip`, `endswith`, `upper`, `list.index` and `posixpath.join`.

Three behaviours of the downloader that are easy to misread, as the code has them:

- **Missing output file.** `validate_audio` raises the generic `FfmpegValidationError` for a missing output file (`Data/AudioSet/audio_set_utils.py:137-139`), not `FfmpegUnopenableFileError`. `AudioSetUtils.ValidateAudio` does the same.
- **When nothing is returned.** `download_yt_video` returns `None` only in two cases: `pafy.new` raises `OSError`, or the best audio stream has no URL. Other failures escape:
  - the clause `except OSError or AttributeError` evaluates to `except OSError`, so an `AttributeError` from `pafy.new` escapes (`DownloadData.DownloadYtVideo` returns `Escaped`);
  - the whole `ffmpeg` call is outside any `try`, so whatever it raises escapes too: an `IndexError` or `ValueError` from the `-t` lookup, a `ZeroDivisionError` from a zero sample rate, an `OSError` from starting the tool, a `UnicodeDecodeError` from its output.
- **Clipped file names.** The name is computed before clipping, so a clipped segment's file name keeps the requested end: a segment from 10 s to 12 s of an 11-second video is saved as `abc123_10000_12000.flac` (`DownloadData.ClippedNameKeepsRequestedEnd`).

## Model

| member | source | states |
|---|---|---|
| Builtins.Trunc | Data/AudioSet/download_data.py:45 | `int(x)` truncates toward zero: the result lies within 1 of `x`, on the same side of 0 |
| Builtins.IntToStringRoundTrip | Data/AudioSet/download_data.py:46 | reading back the decimal text of `str(n)` gives `n` |
| Builtins.RStrip | Data/AudioSet/audio_set_utils.py:65 | the result is a prefix of `s` that does not end in white space, and only white space was removed |
| Builtins.Upper | Data/AudioSet/download_data.py:131 | `upper()` keeps the length, turns each lower-case ASCII letter into its capital (32 code points lower), and changes nothing else |
| Builtins.IndexOf | Data/AudioSet/audio_set_utils.py:85 | `list.index`: nothing exactly when `x` is absent, otherwise the first position holding `x` |
| Builtins.Join | Data/AudioSet/download_data.py:103 | `os.path.join`: an absolute second part replaces the first; a relative one is appended to the first, with one `/` between them unless the first is empty or already ends in `/` |
| AudioSetUtils.RunCommand | Data/AudioSet/audio_set_utils.py:182-190 | succeeds with `(stdout, stderr, code)` exactly when the process started and exited with code 0; a process that cannot start raises `OSError`; a non-zero exit raises a `SubprocessError` carrying the command, code, stdout and stderr, or a `UnicodeDecodeError` when the output does not decode |
| AudioSetUtils.MatchesHttpError | Data/AudioSet/audio_set_utils.py:69 | `HTTP_ERR_PATTERN.match(stderr)`: the text starts with "Server returned " and a 4xx or 5xx status (see `HttpErrorShape`) |
| AudioSetUtils.HttpErrorShape | Data/AudioSet/audio_set_utils.py:12 | "Server returned " followed by three characters matches exactly when they are 4 or 5 followed by two characters that are each `X` or a digit |
| AudioSetUtils.HttpErrorPrefixOnly | Data/AudioSet/audio_set_utils.py:69 | `re.match` looks only at the start: text after the first 19 characters never changes the verdict |
| AudioSetUtils.FirstMismatch | Data/AudioSet/audio_set_utils.py:157-164 | no mismatch exactly when every remaining key agrees; otherwise the first key that disagrees, with all keys before it agreeing |
| AudioSetUtils.ValidateAudio | Data/AudioSet/audio_set_utils.py:137-164 | checks in order, each failure exactly in its case: a missing file (generic error), then an unreadable file, then a zero sample rate, then duration `num_samples / sample_rate` (tolerated only when the end was clipped and the file is shorter), then the first disagreeing key, which always raises `FfmpegValidationError` naming that key with its expected and reported values; it passes exactly when all of them hold |
| AudioSetUtils.ExactFileValidates | Data/AudioSet/audio_set_utils.py:151-164 | a readable file whose measured properties equal the expected ones passes |
| AudioSetUtils.ShortFileStillCheckedPerKey | Data/AudioSet/audio_set_utils.py:153-162 | a tolerated short file raises no duration error, and passes exactly when every key other than `duration` agrees |
| AudioSetUtils.InputFlagsAt | Data/AudioSet/audio_set_utils.py:38-42 | the inputs list has two entries per path, with `-i` before each path |
| AudioSetUtils.BuildInputs | Data/AudioSet/audio_set_utils.py:36-45 | a string gives `["-i", p]`, a list gives `-i` before each of its paths, and anything else is a `ValueError` (as `InputsFor`) |
| AudioSetUtils.CommandLine | Data/AudioSet/audio_set_utils.py:55 | the argument vector is the tool path, the input options, the inputs, the output options, then the output path, `-loglevel` and the level, each in its own segment |
| AudioSetUtils.DurationSlot | Data/AudioSet/audio_set_utils.py:85 | the position after the first `-t`, or nothing exactly when there is no `-t` |
| AudioSetUtils.Bump | Data/AudioSet/audio_set_utils.py:86 | the duration fix changes no element of the list except the value after the first `-t`, which becomes `str(float(value) + diff)` and, for a round-tripping codec, reads back as the old value plus `diff` |
| AudioSetUtils.AdjustDuration | Data/AudioSet/audio_set_utils.py:83-89 | the delta goes to the value after `-t` in the input options when they have one, and otherwise to the output options; it fails (with `IndexError` or `ValueError`) exactly when neither list can take it |
| AudioSetUtils.AdjustTwice | Data/AudioSet/audio_set_utils.py:83-89 | two successive fixes equal one fix by the sum of the deltas, so a fix carries into later attempts |
| AudioSetUtils.BumpKeepsSlot | Data/AudioSet/audio_set_utils.py:86 | after a fix, the list has the same length and the same `-t` position, and is equal outside that value |
| AudioSetUtils.AdjustKeepsSlots | Data/AudioSet/audio_set_utils.py:83-89 | a successful fix leaves both option lists equal outside their `-t` values |
| AudioSetUtils.AttemptFailure | Data/AudioSet/audio_set_utils.py:54-62 | the exception of the `try` block: that of `run_command` first, then that of the validation callback when one is given |
| AudioSetUtils.Retryable | Data/AudioSet/audio_set_utils.py:63-109 | the failures whose handler ends in `continue` or falls through to the next attempt: a `SubprocessError` without the marker, and the three validation errors |
| AudioSetUtils.DeletesOutput | Data/AudioSet/audio_set_utils.py:63-109 | whether the handler removes an existing output: a `SubprocessError` that is neither the marker nor an HTTP error, an unopenable file always, a duration or validation failure before the last attempt |
| AudioSetUtils.Handle | Data/AudioSet/audio_set_utils.py:63-109 | the except clauses: whether the file is deleted (never on "already exists" or HTTP errors; always when unopenable; duration and generic validation failures only before the last attempt); whether the loop goes on; the duration fix; and the option lists left unchanged by every other failure |
| AudioSetUtils.HandleKeepsSlots | Data/AudioSet/audio_set_utils.py:63-109 | no handler that lets the loop go on touches the option lists outside their `-t` values |
| AudioSetUtils.Step | Data/AudioSet/audio_set_utils.py:54-62 | one attempt runs the current argument vector; with no failure it stops as validated, leaving the file as ffmpeg left it; a failure goes to `Handle`, and the loop goes on only after a retryable failure |
| AudioSetUtils.Drive | Data/AudioSet/audio_set_utils.py:52-112 | the `for` loop from attempt `k`: a stopping attempt ends it, a continuing one hands its state to the next attempt, and after the last one the `else` reports `last_err` |
| AudioSetUtils.AttemptBound | Data/AudioSet/audio_set_utils.py:53 | at most `num_retries` attempts are made, and running out (a verdict, not an exception) happens only after every one of them |
| AudioSetUtils.EarlierAttemptsFailed | Data/AudioSet/audio_set_utils.py:53-62 | every attempt before the last one failed with a retryable failure; on exhaustion, all of them did |
| AudioSetUtils.ValidatedIffLastPassed | Data/AudioSet/audio_set_utils.py:56-62 | the loop ends validated exactly when its last attempt had neither a command failure nor a validation failure |
| AudioSetUtils.StopVerdict | Data/AudioSet/audio_set_utils.py:54-68 | an attempt that ends the loop never ends it as exhausted, and ends it on "already exists" only after a `SubprocessError` with the marker that deleted nothing |
| AudioSetUtils.LastAttemptDecides | Data/AudioSet/audio_set_utils.py:63-68 | an "already exists" ending comes from a `SubprocessError` whose stripped stderr ends with the marker, and it deleted nothing; on exhaustion, the reported last error is that of the last attempt |
| AudioSetUtils.AlreadyExistsStopsAtOnce | Data/AudioSet/audio_set_utils.py:63-68 | when the first attempt reports "already exists. Exiting.", the loop stops after exactly one attempt, and the output path is as ffmpeg left it: the loop deletes nothing |
| AudioSetUtils.RunCommandRaisesAtOnce | Data/AudioSet/audio_set_utils.py:52-62 | when the tool cannot be started, or its failing output does not decode, no except clause catches it: the loop stops after one attempt with that exception and deletes nothing |
| AudioSetUtils.SameOutsideSlotRefl | Data/AudioSet/audio_set_utils.py:94-109 | a list agrees with itself outside its `-t` value, the case of every failure but a duration failure, which hands on the same lists |
| AudioSetUtils.ArgsShapedLike | Data/AudioSet/audio_set_utils.py:55 | option lists that differ only at `-t` give an argument vector of the same layout |
| AudioSetUtils.SameOutsideSlotPointwise | Data/AudioSet/audio_set_utils.py:83-89 | two lists agree outside the `-t` value (same length, `-t` at the same place, equal once that value is blanked) exactly when they agree at every other position |
| AudioSetUtils.StepKeepsSlots | Data/AudioSet/audio_set_utils.py:54-109 | an attempt after which the loop goes on leaves both option lists equal outside their `-t` values |
| AudioSetUtils.FollowLists | Data/AudioSet/audio_set_utils.py:83-92 | the options the next attempt runs still differ from the caller's only at the `-t` values |
| AudioSetUtils.LogShaped | Data/AudioSet/audio_set_utils.py:53-92 | once every fix carries to the next attempt and the first attempt runs the caller's options, every attempt runs a full vector of the caller's layout |
| AudioSetUtils.ArgsKeepShape | Data/AudioSet/audio_set_utils.py:53-92 | the first attempt runs the caller's options, and every attempt runs a vector of the same layout that differs only at the `-t` values |
| AudioSetUtils.StepArgsFollow | Data/AudioSet/audio_set_utils.py:77-109 | the next attempt's options are this attempt's options with the duration fix applied after a duration failure, and the same options after any other failure |
| AudioSetUtils.FixCarriesToNextAttempt | Data/AudioSet/audio_set_utils.py:83-92 | along the whole log, each attempt runs exactly the options the previous attempt and its failure call for |
| AudioSetUtils.ExhaustedLeavesFileOnlyWhen | Data/AudioSet/audio_set_utils.py:69-75 | after running out, a file is left at the output path only if the last failure was an HTTP error, or was a duration or validation failure on the final attempt |
| AudioSetUtils.AdjustInPlace | Data/AudioSet/audio_set_utils.py:83-89 | updates the arrays in place to the result of `AdjustDuration`, or leaves both untouched and reports the exception |
| AudioSetUtils.Recover | Data/AudioSet/audio_set_utils.py:63-109 | the except clauses on the arrays: deletion, stop, and new option lists as `Handle` says |
| AudioSetUtils.RunAttempt | Data/AudioSet/audio_set_utils.py:54-109 | one loop pass on the arrays has the outcome `Step` gives |
| AudioSetUtils.RetryLoop | Data/AudioSet/audio_set_utils.py:52-112 | the `for` loop with its `break`s and `else` ends with the verdict, file, log and option lists that `Drive` gives |
| AudioSetUtils.Ffmpeg | Data/AudioSet/audio_set_utils.py:15-112 | a bad input path raises before any attempt and changes nothing; otherwise the result is that of `Drive` from the caller's lists (missing lists counted as empty), and the caller's lists end as the loop left them |
| DownloadData.CommonMember | Data/AudioSet/download_data.py:9-15 | true exactly when the two lists share an element |
| DownloadData.HasNoCommonMember | Data/AudioSet/download_data.py:18-28 | false exactly when `a` meets `b`, or `a` meets both `c` and `d`; so the first branch adds nothing to the second |
| DownloadData.GetMediaFilename | Data/AudioSet/download_data.py:31-46 | `<ytid>_<start ms>_<end ms>` with both times truncated to whole milliseconds; `MediaFilenameRoundTrip` reads it back |
| DownloadData.LastIndexOf | Data/AudioSet/download_data.py:46 | the last position of a character, or nothing when it is absent |
| DownloadData.LastIndexOfSplit | Data/AudioSet/download_data.py:46 | the last `_` in a name is the one before the end time |
| DownloadData.NoUnderscore | Data/AudioSet/download_data.py:46 | the decimal text of an integer has no `_` |
| DownloadData.SplitAtLastTwo | Data/AudioSet/download_data.py:46 | a name `<ytid>_<a>_<b>`, with no `_` in `a` or `b`, reads as the id and the two numbers exactly when both parse |
| DownloadData.MediaFilenameRoundTrip | Data/AudioSet/download_data.py:45-46 | the name `<ytid>_<start ms>_<end ms>` reads back as the id and both truncated millisecond times, even when the id contains `_` |
| DownloadData.AudioFilepath | Data/AudioSet/download_data.py:103 | the audio path: `Join` of the output directory, `audio`, the label and the file name with its extension |
| DownloadData.AudioFilepathUnderOutputDir | Data/AudioSet/download_data.py:103 | for a plain directory and label, the file is `<output_dir>/audio/<label>/<name>.<format>` |
| DownloadData.Clip | Data/AudioSet/download_data.py:113-119 | the flag is set exactly when the requested end is past the video's length; the end is then the video's length, and otherwise the requested end; the duration is always end minus start |
| DownloadData.AudioInfoFor | Data/AudioSet/download_data.py:127-133 | the expected record: the requested rate, 2 channels, the bit depth, the upper-cased codec and the clipped duration |
| DownloadData.AudioInputArgs | Data/AudioSet/download_data.py:136 | `["-n", "-ss", str(ts_start)]` |
| DownloadData.AudioOutputArgs | Data/AudioSet/download_data.py:137-151 | the output options, with `-t` and the duration first |
| DownloadData.DurationFixLandsInOutput | Data/AudioSet/download_data.py:136-151 | the input options have no `-t`, so a duration fix lands in the output options' second element, and nowhere else |
| DownloadData.ToArray | Data/AudioSet/download_data.py:136-151 | a new list holding the given options |
| DownloadData.CaughtAtLookup | Data/AudioSet/download_data.py:107-111 | `except OSError or AttributeError` catches `OSError` only |
| DownloadData.DownloadYtVideo | Data/AudioSet/download_data.py:97-165 | nothing is returned exactly when `pafy.new` raises `OSError` or there is no audio URL; any other lookup error escapes; otherwise ffmpeg runs the clipped segment with the expected record (2 channels, upper-cased codec, clipped duration) and the tolerance flag, and the path built from the requested end is returned even when every retry failed, unless ffmpeg raised |
| DownloadData.ClippedNameKeepsRequestedEnd | Data/AudioSet/download_data.py:102-103 | a clipped segment ends at the video's length, but its file name still carries the requested end in milliseconds |
| SoundClassificationApp.LengthConstants | AndroidApp/app/src/main/java/com/example/soundclassificationapp/SpeechActivity.java:75-79 | the buffer is 240000 samples and the window 96000; the products do not overflow an `int`; the window at offset 96000 fits inside the buffer |
| SoundClassificationApp.FlattenStep | AndroidApp/app/src/main/java/com/example/soundclassificationapp/SpeechActivity.java:221-236 | the chunks read so far, joined, grow by the chunk just read |
| SoundClassificationApp.Overwrite | AndroidApp/app/src/main/java/com/example/soundclassificationapp/SpeechActivity.java:228 | `arraycopy` into the buffer: the copied range holds the chunk, and every other element is unchanged |
| SoundClassificationApp.OverwriteTwice | AndroidApp/app/src/main/java/com/example/soundclassificationapp/SpeechActivity.java:228 | two adjacent copies equal one copy of the joined chunks |
| SoundClassificationApp.RecordedStep | AndroidApp/app/src/main/java/com/example/soundclassificationapp/SpeechActivity.java:221-236 | one more pass of the recording loop keeps the recording invariant |
| SoundClassificationApp.SpeechActivity.constructor | AndroidApp/app/src/main/java/com/example/soundclassificationapp/SpeechActivity.java:94-98 | a fresh all-zero buffer of 240000 samples, offset 0, both flags true |
| SoundClassificationApp.SpeechActivity.ResetAllAttributes | AndroidApp/app/src/main/java/com/example/soundclassificationapp/SpeechActivity.java:106-110 | a fresh all-zero buffer of 240000 samples, offset 0, both flags true |
| SoundClassificationApp.SpeechActivity.RecordChunk | AndroidApp/app/src/main/java/com/example/soundclassificationapp/SpeechActivity.java:224-232 | the chunk is copied at the offset only when offset + count < length, and otherwise recording stops and the buffer is untouched; the offset grows by the count either way; `arraycopy`'s exceptions happen exactly in their cases and change nothing |
| SoundClassificationApp.Fill | AndroidApp/app/src/main/java/com/example/soundclassificationapp/SpeechActivity.java:222 | `record.read(audioBuffer, 0, n)`: the samples read are at the front of `audioBuffer` |
| SoundClassificationApp.SpeechActivity.RecordStep | AndroidApp/app/src/main/java/com/example/soundclassificationapp/SpeechActivity.java:221-232 | one pass of the recording loop: the chunk read is copied in when it fits, and the recording invariant holds for one more chunk |
| SoundClassificationApp.SpeechActivity.Record | AndroidApp/app/src/main/java/com/example/soundclassificationapp/SpeechActivity.java:221-236 | the loop over the chunks read: each chunk that fits is written after the previous ones, the first that does not fit stops recording and is dropped, and when recording has not stopped every chunk was consumed |
| SoundClassificationApp.SpeechActivity.Recognize | AndroidApp/app/src/main/java/com/example/soundclassificationapp/SpeechActivity.java:278-293 | the window fed to the MFCC is the snapshot's samples from 96000 on, each divided by 32767 |
| SoundClassificationApp.InferenceWindow | AndroidApp/app/src/main/java/com/example/soundclassificationapp/SpeechActivity.java:288-293 | sample `i + 96000` of the snapshot divided by 32767, for each of the 96000 positions |
| SoundClassificationApp.InferenceWindowIsSecondsTwoToFour | AndroidApp/app/src/main/java/com/example/soundclassificationapp/SpeechActivity.java:288-293 | the window has 96000 values, is seconds 2 to 4 of the recording, and lies in [-32768/32767, 1] |
| SoundClassificationApp.PaddedWrites | AndroidApp/app/src/main/java/com/example/soundclassificationapp/SpeechActivity.java:364-373 | when no write goes out of bounds, the result has 65536 entries |
| SoundClassificationApp.PaddedWritesNoneSticks | AndroidApp/app/src/main/java/com/example/soundclassificationapp/SpeechActivity.java:367-371 | once a write goes out of bounds, a longer input fails too |
| SoundClassificationApp.CreatePaddedFloatArray | AndroidApp/app/src/main/java/com/example/soundclassificationapp/SpeechActivity.java:364-373 | the loop throws exactly when a write is out of bounds, and otherwise returns a new array of the writes over a zero buffer |
| SoundClassificationApp.PaddedSpec | AndroidApp/app/src/main/java/com/example/soundclassificationapp/SpeechActivity.java:365 | the reference layout has 256×256 entries |
| SoundClassificationApp.PosInjective | AndroidApp/app/src/main/java/com/example/soundclassificationapp/SpeechActivity.java:368-370 | for inputs below 5120, element `i` lands in row `i % 20` and column `i / 20`, in bounds, and distinct elements land in distinct places |
| SoundClassificationApp.PosOfSource | AndroidApp/app/src/main/java/com/example/soundclassificationapp/SpeechActivity.java:368-370 | every place in the first 20 rows is the target of some input element below 5120 (of only one, by `PosInjective`) |
| SoundClassificationApp.PosCollidesAt5120 | AndroidApp/app/src/main/java/com/example/soundclassificationapp/SpeechActivity.java:368-370 | beyond 5120 elements the layout wraps: element 5120 overwrites element 1 |
| SoundClassificationApp.PaddedWritesMatchSpec | AndroidApp/app/src/main/java/com/example/soundclassificationapp/SpeechActivity.java:364-373 | for at most 5120 inputs, no write fails, and the result is the reference layout: each element transposed into the first 20 rows, and 0 everywhere else |
| SoundClassificationApp.GetIndexOfLargest | AndroidApp/app/src/main/java/com/example/soundclassificationapp/SpeechActivity.java:375-384 | −1 for a null or empty array; out of bounds for length 1; otherwise an in-range index of a maximum, preferring index 1, then 0, then the first maximum after them |
| SoundClassificationApp.GetIndexOfFirstLargest | AndroidApp/app/src/main/java/com/example/soundclassificationapp/SpeechActivity.java:375-384 | the scan the comment describes: −1 for null or empty, otherwise the first index of a maximum |
| SoundClassificationApp.GetLargestFloat | AndroidApp/app/src/main/java/com/example/soundclassificationapp/SpeechActivity.java:386-398 | −1 for a null or empty array, otherwise an element that is at least every element |
| SoundClassificationApp.LargestIsAtChosenIndex | AndroidApp/app/src/main/java/com/example/soundclassificationapp/SpeechActivity.java:346-347 | the largest value is the value at the chosen index |
| SoundClassificationApp.ScanChoiceUnique | AndroidApp/app/src/main/java/com/example/soundclassificationapp/SpeechActivity.java:375-384 | the index the scan picks is determined by the array |
| SoundClassificationApp.TieAtStartReportsOne | AndroidApp/app/src/main/java/com/example/soundclassificationapp/SpeechActivity.java:378-381 | when elements 0 and 1 tie for the maximum, the scan reports 1, though the first maximum is 0 |
| LoadData.ConvertDataToMfcc | SoundClassification/DataProcessing/load_data.py:10-32 | succeeds exactly when the MFCC is at most 256 by 256; the result is then 256×256, with the MFCC in its top-left corner |
| LoadData.Zeros | SoundClassification/DataProcessing/load_data.py:32 | `n` zeros |
| LoadData.Repeat | SoundClassification/DataProcessing/load_data.py:54 | `[x] * n`: `n` copies of `x` |
| LoadData.Pad | SoundClassification/DataProcessing/load_data.py:30-32 | succeeds exactly when the matrix is at most `n` high and wide (a negative width is `np.pad`'s error); the result is `n`×`n`, with the original in the top-left and zeros elsewhere |
| LoadData.PadThenCrop | SoundClassification/DataProcessing/load_data.py:30-32 | cropping the padded matrix back gives the original coefficients |
| LoadData.Channel0 | SoundClassification/DataProcessing/load_data.py:53 | `recording[:, 0]`: the first channel of every frame |
| LoadData.ConvertAllShape | SoundClassification/DataProcessing/load_data.py:52-53 | converting all recordings succeeds exactly when every one does, giving one 256×256 matrix per recording, in order |
| LoadData.ConvertEach | SoundClassification/DataProcessing/load_data.py:52-53 | the loop stops at the first failing recording and gives what `ConvertAll` gives |
| LoadData.PrefixErrSticks | SoundClassification/DataProcessing/load_data.py:52-53 | a failure in the first recordings is the failure of the whole |
| LoadData.ApplyMfcc | SoundClassification/DataProcessing/load_data.py:49-56 | one MFCC per recording, and a label list of the same length with every entry equal to the label |
| LoadData.Windows | SoundClassification/DataProcessing/load_data.py:39-46 | three windows exactly when the sample rate is positive and the third window, starting at row 28800, fits within the recording; a zero rate fails at the first `reshape(-1, 0, 2)`, which numpy cannot infer, and a short recording at its slice |
| LoadData.WindowsOverlap | SoundClassification/DataProcessing/load_data.py:43-44 | three windows of `2 * samplerate` frames starting at rows 9600, 19200 and 28800; consecutive windows overlap, so a window's frame `i` is frame `9600 + i` of the window before it |
| LoadData.PySlice | SoundClassification/DataProcessing/load_data.py:44 | a numpy slice has its full length only when it lies within the data, and then is the plain slice |
| LoadData.ShortenRecording | SoundClassification/DataProcessing/load_data.py:35-46 | the loop gives the windows of `Windows`, or the reshape error at the window that comes up short |
| LoadData.RowsRoundTrip | SoundClassification/DataProcessing/load_data.py:70 | reshaping into rows of 96000 frames loses nothing: the rows joined give back the frames |
| LoadData.ConcatThree | SoundClassification/DataProcessing/load_data.py:70 | the three windows flattened are the windows one after the other |
| LoadData.FileRowCounts | SoundClassification/DataProcessing/load_data.py:69-74 | the reshape of a file's windows succeeds exactly when the sample rate is a multiple of 16000; a file then adds `samplerate / 16000` full rows to `X` and 3 matrices to `X_mfcc`, and the two counts agree exactly at 48000 Hz |
| LoadData.TrainBound | SoundClassification/DataProcessing/load_data.py:64-77 | the loop stops only after the row count passes `max_samples`, so there are at most `max_samples` plus one file's rows (plus 3 at 48000 Hz) |
| LoadData.TrainRowsMatchAt48k | SoundClassification/DataProcessing/load_data.py:69-77 | at 48000 Hz each file read adds three rows to both `X` and `X_mfcc`, so the two stay the same length |
| LoadData.FileRows | SoundClassification/DataProcessing/load_data.py:66-74 | a file's three windows, reshaped into rows of `X` and converted into three MFCC matrices, or the first numpy error (see `FileRowCounts`) |
| LoadData.Train | SoundClassification/DataProcessing/load_data.py:64-77 | the directory loop: each file's rows appended in listing order, ending after the first file that leaves more than `max_samples` rows (see `TrainBound`) |
| LoadData.ApplyFile | SoundClassification/DataProcessing/load_data.py:66-74 | one file's rows and matrices, as `FileRows` gives them |
| LoadData.BuildTrainArray | SoundClassification/DataProcessing/load_data.py:59-82 | the loop with its early `break` gives the arrays of `Train`, and each label list is as long as its sample array |
| LoadData.GetAllSoundData | SoundClassification/DataProcessing/load_data.py:85-93 | gives `AllSoundData`: speech, then silence, then singing |
| LoadData.AllSoundDataLabelsLineUp | SoundClassification/DataProcessing/load_data.py:86-93 | samples and labels are concatenated in the same order: the first rows are speech, with speech labels, then silence, then singing |

## Left out

- Process spawning, the network, `pafy`, `sox` and `soundfile`, and the file system are oracles. Each attempt's result and the file it leaves are a `Run`; its `Process` says whether the tool started and whether its output decodes, so the `OSError` and `UnicodeDecodeError` of `run_command` are modelled, but not which bytes fail to decode. `exists(path)` is the `FileState`. A lookup is the `fetch` function.
- The `errors` module is not part of this model. Its four exception kinds are one datatype, dispatched in the order of the `except` clauses, with no subclass relation assumed.
- IEEE floats are replaced by exact reals. This affects the equality test on durations, `str(float(...))` on the `-t` value (an abstract parse/format pair), `/ 32767.0` (the `double` and the `float` windows coincide in reals, so the `float` copy is not modelled separately), `%.2f`, and `int(ts_start * 1000)` in the file name (`Data/AudioSet/download_data.py:45`): in doubles `1.001 * 1000` is `1000.9999999999999` and truncates to 1000, where the exact product truncates to 1001, so the model's name can differ from the program's.
- Console output (`print`, `Log.v`) is not modelled.
- Threads, `ReentrantLock`, `synchronized` and the UI (`setText`, drawables, `recordingThread`, `recognitionThread`, `startRecognition`) are not modelled. Only the sequential buffer steps are.
- AudioRecord set-up, `record.read`, the TFLite interpreter, the MFCC Java library and `FileUtil.loadLabels`, with the label lookup at lines 348-349, are external calls. Reading is the sequence of chunks handed to `Record`, and the MFCC output is the array given to `CreatePaddedFloatArray`.
- `SoundClassificationApp.SpeechActivity.Record`: the loop stops when the finite sequence of chunks runs out, whereas the source keeps reading until a chunk does not fit. Negative read counts (AudioRecord error codes) are handled by `RecordChunk` only as the exceptions `arraycopy` would throw.
- `SoundClassificationApp.SpeechActivity.RecordChunk`: does not model the 32-bit wrap-around of `recordingOffset += numberRead`. Reaching it takes more than 2^31 samples summed, far past the 240000-sample buffer.
- librosa's MFCC is an abstract function value. Reading the `padding` flag is left out because the code ignores it.
- `LabelBinarizer`, `train_test_split`, `get_train_test_data` and the Keras models, training and export are library calls with no logic of their own.
- `os.listdir` and `sf.read` in `build_train_array` are modelled as the list of `SoundFile`s they produce, in that order.
- Recordings whose data is mono (one-dimensional) are not modelled. Every frame has two channels, as `shorten_recording`'s reshape requires.
- `Builtins.Upper`: covers ASCII only. Python's `str.upper()` also maps non-ASCII letters and can change the length (`"ß"` becomes `"SS"`); the codec names passed to it are ASCII.
- Python 3.10 and later, where `collections.Iterable` is gone and any non-`str` input path raises `AttributeError`, are not modelled.
- `AudioSetUtils.Ffmpeg`: does not model `input_args` and `output_args` being one and the same non-empty list object. No caller passes that.
- `InferenceResultActivity.java`, `AudioSetProcessing.py` and the `__main__` block of `download_data.py` (pandas filtering and sampling) are UI, incomplete, and data-frame glue respectively.

## Findings

| source | as written | input that shows it | evidently intended | confidence | as-written member | corrected member |
|---|---|---|---|---|---|---|
| AndroidApp/app/src/main/java/com/example/soundclassificationapp/SpeechActivity.java:375-384 | `largest` starts at 1, so index 0 is never chosen over index 1 when they tie, and a one-element array reads out of bounds | `[x]` throws `ArrayIndexOutOfBoundsException`; `[x, x]` returns 1 | the position of the first largest value, as the comment says: 0 for `[x]` and for `[x, x]` | not executed | SoundClassificationApp.TieAtStartReportsOne | SoundClassificationApp.GetIndexOfFirstLargest |
