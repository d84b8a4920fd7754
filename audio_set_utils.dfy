/**
 * The fetch-transcode-validate-retry engine of the AudioSet downloader:
 * `run_command`, `validate_audio` and the `ffmpeg` driver with its retry loop.
 *
 * The outside world is an oracle: for every attempt a `Run` says what the
 * ffmpeg process returned and what it left at the output path.  The output
 * path is `Absent` or `Present` (readable or not, with what sox reports).
 */
module AudioSetUtils {
  import opened Builtins

  // ---------------------------------------------------------------------
  // Failure kinds
  // ---------------------------------------------------------------------

  /** Expected properties, in the key order of the dictionary the caller builds. */
  datatype AudioInfo = AudioInfo(sampleRate: int, channels: int, bitrate: int, encoding: string, duration: real)

  /** What `sox.file_info.info` reports about a produced file. */
  datatype SoxInfo = SoxInfo(sampleRate: real, channels: int, bitrate: int, encoding: string, duration: real, numSamples: int)

  /** The output path: missing, or a file that `soundfile` can or cannot read. */
  datatype FileState = Absent | Present(readable: bool, sox: SoxInfo)

  datatype Key = SampleRate | Channels | Bitrate | Encoding | Duration

  /** The keys of `audio_info`, in insertion order. */
  const AUDIO_INFO_KEYS: seq<Key> := [SampleRate, Channels, Bitrate, Encoding, Duration]

  /** A dictionary value; Python compares ints and floats by value, so numbers are reals. */
  datatype Value = Num(x: real) | Text(s: string)

  datatype Reason = DoesNotExist | Mismatch(key: Key, expected: Value, actual: Value)

  datatype ValueErrorKind = InputPathType | NoDurationFlag | DurationNotANumber

  /**
   * The four exception kinds of the `errors` module, dispatched by the driver,
   * and the Python exceptions that escape it.
   */
  datatype Error =
    | SubprocessError(cmd: seq<string>, code: int, stdout: string, stderr: string)
    | IncorrectDurationError(path: string, target: real, actual: real)
    | UnopenableFileError(path: string)
    | ValidationError(path: string, reason: Reason)
    | ValueError(kind: ValueErrorKind)
    | IndexError
    | ZeroDivisionError
    | OSError
    | UnicodeDecodeError

  // ---------------------------------------------------------------------
  // run_command
  // ---------------------------------------------------------------------

  datatype CommandResult = CommandResult(stdout: string, stderr: string, code: int)

  /**
   * What `sp.Popen(cmd, ...)` and `communicate()` give: the `OSError` that
   * `Popen` raises (a `FileNotFoundError` when the tool does not exist), or
   * the finished process, with whether its output is valid UTF-8.
   */
  datatype Process = SpawnFailed | Exited(out: CommandResult, decodes: bool)

  /**
   * `run_command(cmd)`, given what the spawned process did.  The output is
   * decoded only to build the `SubprocessError`.
   */
  function RunCommand(cmd: seq<string>, p: Process): (r: Result<CommandResult, Error>)
    ensures r.Ok? <==> p.Exited? && p.out.code == 0
    ensures r.Ok? ==> r.value == p.out
    ensures p.SpawnFailed? ==> r == Err(OSError)
    ensures p.Exited? && p.out.code != 0 ==>
      r == Err(if p.decodes then SubprocessError(cmd, p.out.code, p.out.stdout, p.out.stderr) else UnicodeDecodeError)
  {
    match p
    case SpawnFailed => Err(OSError)
    case Exited(res, decodes) =>
      if res.code == 0 then Ok(res)
      else if decodes then Err(SubprocessError(cmd, res.code, res.stdout, res.stderr))
      else Err(UnicodeDecodeError)
  }

  // ---------------------------------------------------------------------
  // HTTP_ERR_PATTERN and the "already exists" marker
  // ---------------------------------------------------------------------

  const HTTP_ERR_PREFIX := "Server returned "
  const ALREADY_EXISTS := "already exists. Exiting."

  predicate IsStatusChar(c: char) { c == 'X' || IsDigit(c) }

  /** A three-character HTTP status of the 4xx or 5xx class, digits possibly masked by 'X'. */
  predicate IsErrorStatus(code: string)
  {
    |code| == 3 && (code[0] == '4' || code[0] == '5') && IsStatusChar(code[1]) && IsStatusChar(code[2])
  }

  /** `HTTP_ERR_PATTERN.match(s)`: `re.match` anchors at the start of `s` only. */
  predicate MatchesHttpError(s: string)
  {
    |s| >= 19 && s[..16] == HTTP_ERR_PREFIX && IsErrorStatus(s[16..19])
  }

  /** The pattern matches exactly the texts that start with the prefix and an error status. */
  lemma HttpErrorShape(code: string, rest: string)
    requires |code| == 3
    ensures MatchesHttpError(HTTP_ERR_PREFIX + code + rest) <==> IsErrorStatus(code)
  {
    var s := HTTP_ERR_PREFIX + code + rest;
    assert s[..16] == HTTP_ERR_PREFIX;
    assert s[16..19] == code;
  }

  /** Matching looks at a prefix only: whatever follows the status does not matter. */
  lemma HttpErrorPrefixOnly(s: string, t: string)
    requires |s| >= 19
    ensures MatchesHttpError(s + t) <==> MatchesHttpError(s)
  {
    assert (s + t)[..16] == s[..16];
    assert (s + t)[16..19] == s[16..19];
  }

  // ---------------------------------------------------------------------
  // validate_audio
  // ---------------------------------------------------------------------

  function Expected(info: AudioInfo, k: Key): Value
  {
    match k
    case SampleRate => Num(info.sampleRate as real)
    case Channels => Num(info.channels as real)
    case Bitrate => Num(info.bitrate as real)
    case Encoding => Text(info.encoding)
    case Duration => Num(info.duration)
  }

  function Reported(sox: SoxInfo, k: Key): Value
  {
    match k
    case SampleRate => Num(sox.sampleRate)
    case Channels => Num(sox.channels as real)
    case Bitrate => Num(sox.bitrate as real)
    case Encoding => Text(sox.encoding)
    case Duration => Num(sox.duration)
  }

  /** Key `k` passes the per-key comparison (the duration key is skipped when the short case is tolerated). */
  predicate Agrees(info: AudioInfo, sox: SoxInfo, skipDuration: bool, k: Key)
  {
    (k == Duration && skipDuration) || Expected(info, k) == Reported(sox, k)
  }

  /** The position of the first key of `keys[from..]` that does not agree. */
  function FirstMismatch(keys: seq<Key>, from: nat, info: AudioInfo, sox: SoxInfo, skipDuration: bool): (r: Option<nat>)
    requires from <= |keys|
    ensures r.None? <==> forall i :: from <= i < |keys| ==> Agrees(info, sox, skipDuration, keys[i])
    ensures r.Some? ==> from <= r.value < |keys| && !Agrees(info, sox, skipDuration, keys[r.value])
    ensures r.Some? ==> forall i :: from <= i < r.value ==> Agrees(info, sox, skipDuration, keys[i])
    decreases |keys| - from
  {
    if from == |keys| then None
    else if !Agrees(info, sox, skipDuration, keys[from]) then Some(from)
    else FirstMismatch(keys, from + 1, info, sox, skipDuration)
  }

  /** Duration measured from the sample count and the EXPECTED sample rate. */
  function ActualDuration(info: AudioInfo, sox: SoxInfo): real
    requires info.sampleRate != 0
  {
    sox.numSamples as real / info.sampleRate as real
  }

  /** The tolerated case: the segment ran past the end of the video and the file is shorter. */
  predicate ShortTolerated(info: AudioInfo, sox: SoxInfo, endPastVideoEnd: bool)
    requires info.sampleRate != 0
  {
    endPastVideoEnd && ActualDuration(info, sox) < info.duration
  }

  datatype Check = Passed | Failed(error: Error)

  /** `validate_audio(path, audio_info, end_past_video_end)` against the state of the output path. */
  function ValidateAudio(path: string, file: FileState, info: AudioInfo, endPastVideoEnd: bool): (r: Check)
    // 1. a missing file is the generic validation error
    ensures r == Failed(ValidationError(path, DoesNotExist)) <==> file.Absent?
    // 2. an unreadable file
    ensures r == Failed(UnopenableFileError(path)) <==> file.Present? && !file.readable
    ensures r == Failed(ZeroDivisionError) <==> file.Present? && file.readable && info.sampleRate == 0
    // 3. the duration check
    ensures r.Failed? && r.error.IncorrectDurationError? <==>
      file.Present? && file.readable && info.sampleRate != 0
      && ActualDuration(info, file.sox) != info.duration && !ShortTolerated(info, file.sox, endPastVideoEnd)
    ensures r.Failed? && r.error.IncorrectDurationError? ==>
      r.error == IncorrectDurationError(path, info.duration, ActualDuration(info, file.sox))
    // 4. the per-key comparison: the first key that disagrees is reported
    ensures r.Failed? && r.error.ValidationError? && r.error.reason.Mismatch? ==>
      file.Present? && file.readable && info.sampleRate != 0
      && (ActualDuration(info, file.sox) == info.duration || ShortTolerated(info, file.sox, endPastVideoEnd))
      && exists i :: 0 <= i < |AUDIO_INFO_KEYS| && r.error.reason.key == AUDIO_INFO_KEYS[i]
           && !Agrees(info, file.sox, ShortTolerated(info, file.sox, endPastVideoEnd), AUDIO_INFO_KEYS[i])
           && r.error.reason == Mismatch(AUDIO_INFO_KEYS[i], Expected(info, AUDIO_INFO_KEYS[i]), Reported(file.sox, AUDIO_INFO_KEYS[i]))
           && forall j :: 0 <= j < i ==> Agrees(info, file.sox, ShortTolerated(info, file.sox, endPastVideoEnd), AUDIO_INFO_KEYS[j])
    // ... and a disagreeing key always raises, naming the first one
    ensures (file.Present? && file.readable && info.sampleRate != 0
             && (ActualDuration(info, file.sox) == info.duration || ShortTolerated(info, file.sox, endPastVideoEnd))
             && FirstMismatch(AUDIO_INFO_KEYS, 0, info, file.sox, ShortTolerated(info, file.sox, endPastVideoEnd)).Some?)
      ==>
        var k := AUDIO_INFO_KEYS[FirstMismatch(AUDIO_INFO_KEYS, 0, info, file.sox, ShortTolerated(info, file.sox, endPastVideoEnd)).value];
        r == Failed(ValidationError(path, Mismatch(k, Expected(info, k), Reported(file.sox, k))))
    ensures r == Passed <==>
      file.Present? && file.readable && info.sampleRate != 0
      && (ActualDuration(info, file.sox) == info.duration || ShortTolerated(info, file.sox, endPastVideoEnd))
      && forall j :: 0 <= j < |AUDIO_INFO_KEYS| ==>
           Agrees(info, file.sox, ShortTolerated(info, file.sox, endPastVideoEnd), AUDIO_INFO_KEYS[j])
  {
    if file.Absent? then Failed(ValidationError(path, DoesNotExist))
    else if !file.readable then Failed(UnopenableFileError(path))
    else if info.sampleRate == 0 then Failed(ZeroDivisionError)
    else
      var target := info.duration;
      var actual := ActualDuration(info, file.sox);
      var tolerated := ShortTolerated(info, file.sox, endPastVideoEnd);
      if target != actual && !tolerated then Failed(IncorrectDurationError(path, target, actual))
      else match FirstMismatch(AUDIO_INFO_KEYS, 0, info, file.sox, tolerated)
        case None => Passed
        case Some(i) =>
          var k := AUDIO_INFO_KEYS[i];
          Failed(ValidationError(path, Mismatch(k, Expected(info, k), Reported(file.sox, k))))
  }

  /** A readable file whose measured properties are exactly the expected ones validates. */
  lemma ExactFileValidates(path: string, info: AudioInfo, sox: SoxInfo, endPastVideoEnd: bool)
    requires info.sampleRate != 0
    requires sox.numSamples as real == info.duration * info.sampleRate as real
    requires sox.sampleRate == info.sampleRate as real && sox.channels == info.channels
    requires sox.bitrate == info.bitrate && sox.encoding == info.encoding && sox.duration == info.duration
    ensures ValidateAudio(path, Present(true, sox), info, endPastVideoEnd) == Passed
  {
    var sr := info.sampleRate as real;
    assert (info.duration * sr) / sr == info.duration;
    assert ActualDuration(info, sox) == info.duration;
  }

  /**
   * A short file past the video end only skips the duration checks: the
   * other keys are still compared.
   */
  lemma ShortFileStillCheckedPerKey(path: string, info: AudioInfo, sox: SoxInfo)
    requires info.sampleRate != 0
    requires ActualDuration(info, sox) < info.duration
    ensures var r := ValidateAudio(path, Present(true, sox), info, true);
      && !(r.Failed? && r.error.IncorrectDurationError?)
      && (r == Passed <==> forall k :: k != Duration ==> Expected(info, k) == Reported(sox, k))
  {
    var r := ValidateAudio(path, Present(true, sox), info, true);
    if r == Passed {
      forall k | k != Duration ensures Expected(info, k) == Reported(sox, k) {
        var i := if k == SampleRate then 0 else if k == Channels then 1 else if k == Bitrate then 2 else 3;
        assert AUDIO_INFO_KEYS[i] == k;
      }
    }
  }

  // ---------------------------------------------------------------------
  // Building the argument vector
  // ---------------------------------------------------------------------

  /** `input_path`: a str, another iterable of paths, or anything else. */
  datatype InputPath = Str(path: string) | Iterable(paths: seq<string>) | NotIterable

  /** "-i" before each path, in order. */
  function InputFlags(paths: seq<string>): seq<string>
  {
    if paths == [] then [] else InputFlags(paths[..|paths| - 1]) + ["-i", paths[|paths| - 1]]
  }

  lemma {:induction false} InputFlagsAt(paths: seq<string>)
    ensures |InputFlags(paths)| == 2 * |paths|
    ensures forall k :: 0 <= k < |paths| ==> InputFlags(paths)[2 * k] == "-i" && InputFlags(paths)[2 * k + 1] == paths[k]
  {
    if paths != [] {
      InputFlagsAt(paths[..|paths| - 1]);
    }
  }

  /** What `inputs` becomes for each kind of `input_path`. */
  function InputsFor(inputPath: InputPath): Result<seq<string>, Error>
  {
    match inputPath
    case Str(p) => Ok(["-i", p])
    case Iterable(ps) => Ok(InputFlags(ps))
    case NotIterable => Err(ValueError(InputPathType))
  }

  /** The construction of `inputs` at the top of `ffmpeg`. */
  method BuildInputs(inputPath: InputPath) returns (r: Result<seq<string>, Error>)
    ensures r == InputsFor(inputPath)
  {
    match inputPath {
      case Str(p) =>
        r := Ok(["-i", p]);
      case Iterable(ps) =>
        var inputs: seq<string> := [];
        var i := 0;
        while i < |ps|
          invariant 0 <= i <= |ps|
          invariant inputs == InputFlags(ps[..i])
        {
          assert ps[..i + 1][..i] == ps[..i];
          inputs := inputs + ["-i"];
          inputs := inputs + [ps[i]];
          i := i + 1;
        }
        assert ps[..i] == ps;
        r := Ok(inputs);
      case NotIterable =>
        r := Err(ValueError(InputPathType));
    }
  }

  /** `[ffmpeg_path] + input_args + inputs + output_args + [output_path, '-loglevel', log_level]`. */
  function CommandLine(ffmpegPath: string, inputArgs: seq<string>, inputs: seq<string>,
                       outputArgs: seq<string>, outputPath: string, logLevel: string): (r: seq<string>)
    ensures |r| == |inputArgs| + |inputs| + |outputArgs| + 4
    ensures r[0] == ffmpegPath
    ensures r[1..1 + |inputArgs|] == inputArgs
    ensures r[1 + |inputArgs|..1 + |inputArgs| + |inputs|] == inputs
    ensures r[1 + |inputArgs| + |inputs|..|r| - 3] == outputArgs
    ensures r[|r| - 3..] == [outputPath, "-loglevel", logLevel]
  {
    [ffmpegPath] + inputArgs + inputs + outputArgs + [outputPath, "-loglevel", logLevel]
  }

  // ---------------------------------------------------------------------
  // The "-t" fix after a duration error
  // ---------------------------------------------------------------------

  /** The index that `args.index('-t') + 1` computes, if there is a "-t". */
  function DurationSlot(args: seq<string>): (r: Option<nat>)
    ensures r.Some? ==> 1 <= r.value <= |args| && args[r.value - 1] == "-t"
    ensures r.None? <==> "-t" !in args
  {
    match IndexOf(args, "-t")
    case None => None
    case Some(i) => Some(i + 1)
  }

  /** The "-t" value in `args` exists and reads as a number. */
  predicate Adjustable(args: seq<string>, codec: FloatCodec)
  {
    DurationSlot(args).Some? && DurationSlot(args).value < |args|
    && codec.parse(args[DurationSlot(args).value]).Some?
  }

  /** `args` with `diff` added to its "-t" value. */
  function Bump(args: seq<string>, diff: real, codec: FloatCodec): (r: seq<string>)
    requires Adjustable(args, codec)
    ensures |r| == |args|
    ensures forall k :: 0 <= k < |args| && k != DurationSlot(args).value ==> r[k] == args[k]
    // `str(float(value) + diff)` at the slot: with a round-tripping codec it reads back as the sum
    ensures r[DurationSlot(args).value] == codec.format(codec.parse(args[DurationSlot(args).value]).value + diff)
    ensures RoundTrips(codec) ==>
      codec.parse(r[DurationSlot(args).value]) == Some(codec.parse(args[DurationSlot(args).value]).value + diff)
  {
    var j := DurationSlot(args).value;
    args[j := codec.format(codec.parse(args[j]).value + diff)]
  }

  /** The fallback of the `except ValueError` branch: fix the output options instead. */
  function AdjustOutput(inputArgs: seq<string>, outputArgs: seq<string>, diff: real, codec: FloatCodec)
    : Result<(seq<string>, seq<string>), Error>
  {
    match DurationSlot(outputArgs)
    case None => Err(ValueError(NoDurationFlag))
    case Some(j) =>
      if j >= |outputArgs| then Err(IndexError)
      else if codec.parse(outputArgs[j]).None? then Err(ValueError(DurationNotANumber))
      else Ok((inputArgs, Bump(outputArgs, diff, codec)))
  }

  /**
   * The try/except ValueError block of the duration handler.  A missing "-t"
   * or an unreadable number in the input options falls back to the output
   * options; "-t" as the last element raises IndexError, which nothing catches.
   */
  function AdjustDuration(inputArgs: seq<string>, outputArgs: seq<string>, diff: real, codec: FloatCodec)
    : (r: Result<(seq<string>, seq<string>), Error>)
    ensures Adjustable(inputArgs, codec) ==> r == Ok((Bump(inputArgs, diff, codec), outputArgs))
    ensures !Adjustable(inputArgs, codec) && DurationSlot(inputArgs) != Some(|inputArgs|) && Adjustable(outputArgs, codec) ==>
      r == Ok((inputArgs, Bump(outputArgs, diff, codec)))
    ensures r.Ok? <==> (Adjustable(inputArgs, codec)
                        || (DurationSlot(inputArgs) != Some(|inputArgs|) && Adjustable(outputArgs, codec)))
    ensures r.Err? ==> r.error == IndexError || r.error.ValueError?
  {
    match DurationSlot(inputArgs)
    case Some(j) =>
      if j >= |inputArgs| then Err(IndexError)
      else if codec.parse(inputArgs[j]).Some? then Ok((Bump(inputArgs, diff, codec), outputArgs))
      else AdjustOutput(inputArgs, outputArgs, diff, codec)
    case None => AdjustOutput(inputArgs, outputArgs, diff, codec)
  }

  /** Two successive fixes add up, so a correction carries into every later attempt. */
  lemma AdjustTwice(args: seq<string>, d1: real, d2: real, codec: FloatCodec)
    requires RoundTrips(codec) && Adjustable(args, codec)
    ensures Adjustable(Bump(args, d1, codec), codec)
    ensures Bump(Bump(args, d1, codec), d2, codec) == Bump(args, d1 + d2, codec)
  {
    var j := DurationSlot(args).value;
    var once := Bump(args, d1, codec);
    var v := codec.parse(args[j]).value;
    assert once[..j] == args[..j];
    IndexOfPrefix(args, once, j);
    assert DurationSlot(once) == Some(j);
    assert codec.parse(codec.format(v + d1)) == Some(v + d1);
  }

  /** `index` depends only on the part of the list before the first occurrence. */
  lemma {:induction false} IndexOfPrefix(a: seq<string>, b: seq<string>, j: nat)
    requires DurationSlot(a) == Some(j) && j <= |b| && a[..j] == b[..j]
    ensures DurationSlot(b) == Some(j)
  {
    var i := IndexOf(a, "-t").value;
    assert b[i] == a[i];
    assert forall k :: 0 <= k < i ==> b[k] == a[k];
  }

  // ---------------------------------------------------------------------
  // The retry loop, as a state machine
  // ---------------------------------------------------------------------

  /** The validation callback and its arguments. */
  datatype Validation = Validation(audioInfo: AudioInfo, endPastVideoEnd: bool)

  /** The arguments of one `ffmpeg` call that the loop never changes. */
  datatype Config = Config(ffmpegPath: string, inputs: seq<string>, outputPath: string, logLevel: string,
                           numRetries: int, validation: Option<Validation>, codec: FloatCodec)

  /** What the loop carries from one attempt to the next. */
  datatype State = State(inputArgs: seq<string>, outputArgs: seq<string>, file: FileState, lastErr: Option<Error>)

  /** What the outside world does on one attempt. */
  datatype Run = Run(result: Process, fileAfter: FileState)

  /** One attempt: the argument vector, the failure caught, and whether the output was deleted. */
  datatype Attempt = Attempt(args: seq<string>, failure: Option<Error>, removed: bool)

  /** How the loop ended: "break" after success or on the marker, the for-else, or an escaping exception. */
  datatype Verdict = Validated | AlreadyExists | Exhausted(lastErr: Option<Error>) | Raised(error: Error)

  datatype StepResult = Next(st: State, attempt: Attempt) | Stop(st: State, verdict: Verdict, attempt: Attempt)

  function Args(cfg: Config, st: State): seq<string>
  {
    CommandLine(cfg.ffmpegPath, st.inputArgs, cfg.inputs, st.outputArgs, cfg.outputPath, cfg.logLevel)
  }

  /** The exception the try block raises, if any: the command first, then the callback. */
  function AttemptFailure(cfg: Config, args: seq<string>, run: Run): Option<Error>
  {
    match RunCommand(args, run.result)
    case Err(e) => Some(e)
    case Ok(_) =>
      match cfg.validation
      case None => None
      case Some(v) =>
        match ValidateAudio(cfg.outputPath, run.fileAfter, v.audioInfo, v.endPastVideoEnd)
        case Passed => None
        case Failed(e) => Some(e)
  }

  /** The failures after which the loop goes on to the next attempt. */
  predicate Retryable(e: Error)
  {
    || (e.SubprocessError? && !EndsWith(RStrip(e.stderr), ALREADY_EXISTS))
    || e.IncorrectDurationError? || e.UnopenableFileError? || e.ValidationError?
  }

  /** The policy: does the handler for `e` delete an existing output on attempt `k`? */
  predicate DeletesOutput(cfg: Config, k: int, e: Error)
  {
    match e
    case SubprocessError(_, _, _, stderr) =>
      !EndsWith(RStrip(stderr), ALREADY_EXISTS) && !MatchesHttpError(RStrip(stderr))
    case IncorrectDurationError(_, _, _) => k < cfg.numRetries - 1
    case UnopenableFileError(_) => true
    case ValidationError(_, _) => k < cfg.numRetries - 1
    case _ => false
  }

  /** The fix a duration failure asks for. */
  function FixFor(cfg: Config, st: State, e: Error): Result<(seq<string>, seq<string>), Error>
    requires e.IncorrectDurationError?
  {
    AdjustDuration(st.inputArgs, st.outputArgs, e.target - e.actual, cfg.codec)
  }

  /** The except clauses, for failure `e` of attempt `k` after ffmpeg left `file` at the output path. */
  function Handle(cfg: Config, st: State, k: int, file: FileState, args: seq<string>, e: Error): (r: StepResult)
    ensures r.attempt == Attempt(args, Some(e), file.Present? && DeletesOutput(cfg, k, e))
    ensures r.st.file == if r.attempt.removed then Absent else file
    ensures r.st.lastErr == Some(e)
    // the loop goes on exactly after a retryable failure whose handler completed
    ensures r.Next? <==> Retryable(e) && (e.IncorrectDurationError? ==> FixFor(cfg, st, e).Ok?)
    ensures r.Stop? ==>
      r.verdict == (if e.SubprocessError? then AlreadyExists
                    else if e.IncorrectDurationError? then Raised(FixFor(cfg, st, e).error)
                    else Raised(e))
    // only a duration failure changes the option lists, and only by its fix
    ensures r.Next? && e.IncorrectDurationError? ==> Ok((r.st.inputArgs, r.st.outputArgs)) == FixFor(cfg, st, e)
    ensures r.Stop? || !e.IncorrectDurationError? ==> r.st.inputArgs == st.inputArgs && r.st.outputArgs == st.outputArgs
  {
    var a := Attempt(args, Some(e), file.Present? && DeletesOutput(cfg, k, e));
    var st1 := State(st.inputArgs, st.outputArgs, if a.removed then Absent else file, Some(e));
    if e.SubprocessError? then
      if EndsWith(RStrip(e.stderr), ALREADY_EXISTS) then Stop(st1, AlreadyExists, a) else Next(st1, a)
    else if e.IncorrectDurationError? then
      match FixFor(cfg, st, e)
      case Err(x) => Stop(st1, Raised(x), a)
      case Ok(lists) => Next(st1.(inputArgs := lists.0, outputArgs := lists.1), a)
    else if e.UnopenableFileError? || e.ValidationError? then Next(st1, a)
    else Stop(st1, Raised(e), a)
  }

  /** One pass of the loop body: attempt `k` in state `st`, the world answering `run`. */
  function Step(cfg: Config, st: State, k: int, run: Run): (r: StepResult)
    ensures r.attempt.args == Args(cfg, st)
    ensures r.attempt.failure == AttemptFailure(cfg, Args(cfg, st), run)
    ensures r.attempt.failure.None? ==> r == Stop(st.(file := run.fileAfter), Validated, r.attempt) && !r.attempt.removed
    ensures r.attempt.failure.Some? ==> r == Handle(cfg, st, k, run.fileAfter, Args(cfg, st), r.attempt.failure.value)
    ensures r.Next? ==> r.attempt.failure.Some? && Retryable(r.attempt.failure.value) && r.st.lastErr == r.attempt.failure
  {
    var args := Args(cfg, st);
    match AttemptFailure(cfg, args, run)
    case None => Stop(st.(file := run.fileAfter), Validated, Attempt(args, None, false))
    case Some(e) => Handle(cfg, st, k, run.fileAfter, args, e)
  }

  /** The effect of the whole loop from attempt `k` on. */
  datatype Outcome = Outcome(state: State, verdict: Verdict, log: seq<Attempt>)

  function Prepend(log: seq<Attempt>, o: Outcome): Outcome
  {
    Outcome(o.state, o.verdict, log + o.log)
  }

  /** `for attempt in range(k, num_retries)` with its `break`s and its `else`. */
  function Drive(cfg: Config, st: State, k: nat, runs: seq<Run>): Outcome
    requires cfg.numRetries <= |runs|
    decreases cfg.numRetries - k
  {
    if k >= cfg.numRetries then Outcome(st, Exhausted(st.lastErr), [])
    else match Step(cfg, st, k, runs[k])
      case Stop(st', v, a) => Outcome(st', v, [a])
      case Next(st', a) => Prepend([a], Drive(cfg, st', k + 1, runs))
  }

  function Budget(cfg: Config, k: nat): nat
  {
    if cfg.numRetries <= k then 0 else cfg.numRetries - k
  }

  /**
   * At most `num_retries` attempts; the loop only runs out after using every
   * attempt, and running out is a verdict, never an exception.
   */
  lemma {:induction false} AttemptBound(cfg: Config, st: State, k: nat, runs: seq<Run>)
    requires cfg.numRetries <= |runs|
    ensures |Drive(cfg, st, k, runs).log| <= Budget(cfg, k)
    ensures Drive(cfg, st, k, runs).verdict.Exhausted? ==> |Drive(cfg, st, k, runs).log| == Budget(cfg, k)
    decreases cfg.numRetries - k
  {
    if k < cfg.numRetries {
      match Step(cfg, st, k, runs[k])
      case Stop(_, _, _) =>
      case Next(st', _) => AttemptBound(cfg, st', k + 1, runs);
    }
  }

  /** Every attempt before the last one failed with a retryable failure; on exhaustion, all of them did. */
  ghost predicate FailedBeforeLast(o: Outcome)
  {
    forall j :: 0 <= j < |o.log| && (j < |o.log| - 1 || o.verdict.Exhausted?) ==>
      o.log[j].failure.Some? && Retryable(o.log[j].failure.value)
  }

  lemma {:induction false} EarlierAttemptsFailed(cfg: Config, st: State, k: nat, runs: seq<Run>)
    requires cfg.numRetries <= |runs|
    ensures FailedBeforeLast(Drive(cfg, st, k, runs))
    decreases cfg.numRetries - k
  {
    if k < cfg.numRetries {
      var r := Step(cfg, st, k, runs[k]);
      if r.Next? {
        EarlierAttemptsFailed(cfg, r.st, k + 1, runs);
        var o, rest := Drive(cfg, st, k, runs), Drive(cfg, r.st, k + 1, runs);
        assert o.log == [r.attempt] + rest.log && o.verdict == rest.verdict;
        forall j | 0 <= j < |o.log| && (j < |o.log| - 1 || o.verdict.Exhausted?)
          ensures o.log[j].failure.Some? && Retryable(o.log[j].failure.value)
        {
          if j > 0 {
            assert o.log[j] == rest.log[j - 1];
          }
        }
      }
    }
  }

  /** The loop stops at the first attempt that passes: "validated" means the last attempt made had no failure. */
  lemma {:induction false} ValidatedIffLastPassed(cfg: Config, st: State, k: nat, runs: seq<Run>)
    requires cfg.numRetries <= |runs|
    ensures var o := Drive(cfg, st, k, runs);
      o.verdict == Validated <==> |o.log| > 0 && o.log[|o.log| - 1].failure.None?
    decreases cfg.numRetries - k
  {
    if k < cfg.numRetries {
      var r := Step(cfg, st, k, runs[k]);
      if r.Next? {
        ValidatedIffLastPassed(cfg, r.st, k + 1, runs);
        AttemptBound(cfg, r.st, k + 1, runs);
        var o, rest := Drive(cfg, st, k, runs), Drive(cfg, r.st, k + 1, runs);
        assert o.log == [r.attempt] + rest.log;
        if |rest.log| > 0 {
          assert o.log[|o.log| - 1] == rest.log[|rest.log| - 1];
        }
      }
    }
  }

  /** Attempt `a` met the "already exists" marker and deleted nothing. */
  predicate MarkerAttempt(a: Attempt)
  {
    && !a.removed && a.failure.Some? && a.failure.value.SubprocessError?
    && EndsWith(RStrip(a.failure.value.stderr), ALREADY_EXISTS)
  }

  /** An attempt that ends the loop is never an exhaustion, and ends it on "already exists" only for that marker. */
  lemma StopVerdict(cfg: Config, st: State, k: int, run: Run)
    requires Step(cfg, st, k, run).Stop?
    ensures var r := Step(cfg, st, k, run);
      !r.verdict.Exhausted? && (r.verdict == AlreadyExists ==> MarkerAttempt(r.attempt))
  {
  }

  /**
   * The ending `o` is told by its last attempt: "already exists" only after
   * the marker, and on exhaustion `last_err` is the last attempt's failure
   * (`err0`, the one carried in, when there was no attempt).
   */
  ghost predicate LastDecides(o: Outcome, err0: Option<Error>)
  {
    && (o.verdict == AlreadyExists ==> |o.log| > 0 && MarkerAttempt(o.log[|o.log| - 1]))
    && (o.verdict.Exhausted? ==> o.verdict.lastErr == if |o.log| == 0 then err0 else o.log[|o.log| - 1].failure)
  }

  lemma LastCons(o: Outcome, a: Attempt, rest: Outcome, err0: Option<Error>)
    requires o.log == [a] + rest.log && o.verdict == rest.verdict
    requires LastDecides(rest, a.failure)
    ensures LastDecides(o, err0)
  {
    if |rest.log| > 0 {
      assert o.log[|o.log| - 1] == rest.log[|rest.log| - 1];
    }
  }

  lemma LastStop(o: Outcome, a: Attempt, err0: Option<Error>)
    requires o.log == [a] && !o.verdict.Exhausted? && (o.verdict == AlreadyExists ==> MarkerAttempt(a))
    ensures LastDecides(o, err0)
  {
  }

  /**
   * How the loop ended is told by its last attempt: the "already exists"
   * marker (file left alone), an escaping exception, or, on exhaustion,
   * `last_err` is the last attempt's failure.
   */
  lemma {:induction false} LastAttemptDecides(cfg: Config, st: State, k: nat, runs: seq<Run>)
    requires cfg.numRetries <= |runs|
    ensures LastDecides(Drive(cfg, st, k, runs), st.lastErr)
    decreases cfg.numRetries - k
  {
    if k < cfg.numRetries {
      var a, next := Unroll(cfg, st, k, runs);
      if next.Some? {
        LastAttemptDecides(cfg, next.value, k + 1, runs);
        LastCons(Drive(cfg, st, k, runs), a, Drive(cfg, next.value, k + 1, runs), st.lastErr);
      } else {
        LastStop(Drive(cfg, st, k, runs), a, st.lastErr);
      }
    }
  }

  /**
   * The "already exists" short cut: when the first attempt reports it, the
   * loop ends after that one attempt and leaves the file as ffmpeg left it.
   */
  lemma AlreadyExistsStopsAtOnce(cfg: Config, st: State, runs: seq<Run>)
    requires 1 <= cfg.numRetries <= |runs|
    requires runs[0].result.Exited? && runs[0].result.decodes
    requires runs[0].result.out.code != 0 && EndsWith(RStrip(runs[0].result.out.stderr), ALREADY_EXISTS)
    ensures var o := Drive(cfg, st, 0, runs);
      o.verdict == AlreadyExists && |o.log| == 1 && o.state.file == runs[0].fileAfter
  {
  }

  /**
   * No except clause catches a failure to start the tool or to decode its
   * output: the first such attempt ends the loop with that exception, and
   * the output path is left as it was.
   */
  lemma RunCommandRaisesAtOnce(cfg: Config, st: State, runs: seq<Run>)
    requires 1 <= cfg.numRetries <= |runs|
    requires runs[0].result.SpawnFailed? || (runs[0].result.Exited? && !runs[0].result.decodes && runs[0].result.out.code != 0)
    ensures var o := Drive(cfg, st, 0, runs);
      && o.verdict == Raised(if runs[0].result.SpawnFailed? then OSError else UnicodeDecodeError)
      && |o.log| == 1 && !o.log[0].removed && o.state.file == runs[0].fileAfter
  {
  }

  /** `args` with its "-t" value, if it has one, replaced by the empty string. */
  function Blank(args: seq<string>): seq<string>
  {
    match DurationSlot(args)
    case Some(j) => if j < |args| then args[j := ""] else args
    case None => args
  }

  /** Two option lists with "-t" at the same place that agree everywhere except possibly at the "-t" value. */
  ghost predicate SameOutsideSlot(a: seq<string>, b: seq<string>)
  {
    |a| == |b| && DurationSlot(b) == DurationSlot(a) && Blank(a) == Blank(b)
  }

  /** `SameOutsideSlot` is agreement at every position other than the "-t" value. */
  lemma SameOutsideSlotPointwise(a: seq<string>, b: seq<string>)
    ensures SameOutsideSlot(a, b) <==>
      && |a| == |b| && DurationSlot(b) == DurationSlot(a)
      && forall i :: 0 <= i < |a| && Some(i) != DurationSlot(a) ==> a[i] == b[i]
  {
    if |a| == |b| && DurationSlot(b) == DurationSlot(a) {
      if forall i :: 0 <= i < |a| && Some(i) != DurationSlot(a) ==> a[i] == b[i] {
        assert |Blank(a)| == |Blank(b)|;
        forall i | 0 <= i < |a| ensures Blank(a)[i] == Blank(b)[i] {
        }
      }
      if Blank(a) == Blank(b) {
        forall i | 0 <= i < |a| && Some(i) != DurationSlot(a) ensures a[i] == b[i] {
          assert Blank(a)[i] == Blank(b)[i];
        }
      }
    }
  }

  lemma BumpKeepsSlot(args: seq<string>, diff: real, codec: FloatCodec)
    requires Adjustable(args, codec)
    ensures SameOutsideSlot(args, Bump(args, diff, codec))
  {
    var j := DurationSlot(args).value;
    var b := Bump(args, diff, codec);
    assert args[..j] == b[..j];
    IndexOfPrefix(args, b, j);
    assert Blank(b) == b[j := ""] == args[j := ""];
  }

  lemma AdjustKeepsSlots(inputArgs: seq<string>, outputArgs: seq<string>, diff: real, codec: FloatCodec)
    requires AdjustDuration(inputArgs, outputArgs, diff, codec).Ok?
    ensures var r := AdjustDuration(inputArgs, outputArgs, diff, codec).value;
      SameOutsideSlot(inputArgs, r.0) && SameOutsideSlot(outputArgs, r.1)
  {
    if Adjustable(inputArgs, codec) {
      BumpKeepsSlot(inputArgs, diff, codec);
    } else {
      BumpKeepsSlot(outputArgs, diff, codec);
    }
  }

  /** Both option lists of `st'` agree with those of `st` outside their "-t" values. */
  ghost predicate SlotsAgree(st: State, st': State)
  {
    SameOutsideSlot(st.inputArgs, st'.inputArgs) && SameOutsideSlot(st.outputArgs, st'.outputArgs)
  }

  /** A completed handler leaves the option lists the same outside their "-t" values. */
  lemma HandleKeepsSlots(cfg: Config, st: State, k: int, file: FileState, args: seq<string>, e: Error)
    requires Handle(cfg, st, k, file, args, e).Next?
    ensures SlotsAgree(st, Handle(cfg, st, k, file, args, e).st)
  {
    var h := Handle(cfg, st, k, file, args, e);
    if e.IncorrectDurationError? {
      var diff := e.target - e.actual;
      assert AdjustDuration(st.inputArgs, st.outputArgs, diff, cfg.codec) == Ok((h.st.inputArgs, h.st.outputArgs));
      AdjustKeepsSlots(st.inputArgs, st.outputArgs, diff, cfg.codec);
    } else {
      SameOutsideSlotRefl(st.inputArgs);
      SameOutsideSlotRefl(st.outputArgs);
    }
  }

  /** An attempt after which the loop goes on leaves the option lists the same outside their "-t" values. */
  lemma StepKeepsSlots(cfg: Config, st: State, k: int, run: Run)
    requires Step(cfg, st, k, run).Next?
    ensures SlotsAgree(st, Step(cfg, st, k, run).st)
  {
    var r := Step(cfg, st, k, run);
    HandleKeepsSlots(cfg, st, k, run.fileAfter, Args(cfg, st), r.attempt.failure.value);
  }

  lemma SameOutsideSlotRefl(a: seq<string>)
    ensures SameOutsideSlot(a, a)
  {
  }

  /** The option lists used in the attempt whose argument vector is `args`. */
  function InputArgsIn(nIn: nat, args: seq<string>): seq<string>
    requires 1 + nIn <= |args|
  {
    args[1..1 + nIn]
  }

  function OutputArgsIn(cfg: Config, nIn: nat, nOut: nat, args: seq<string>): seq<string>
    requires 1 + nIn + |cfg.inputs| + nOut <= |args|
  {
    args[1 + nIn + |cfg.inputs|..1 + nIn + |cfg.inputs| + nOut]
  }

  /** The option lists in `args`, read at the places of `st`'s, differ from `st`'s only at the "-t" values. */
  ghost predicate ListsLike(cfg: Config, st: State, args: seq<string>)
  {
    var nIn, nOut := |st.inputArgs|, |st.outputArgs|;
    && |args| == nIn + |cfg.inputs| + nOut + 4
    && SameOutsideSlot(st.inputArgs, InputArgsIn(nIn, args))
    && SameOutsideSlot(st.outputArgs, OutputArgsIn(cfg, nIn, nOut, args))
  }

  /** `args` is the vector of an attempt whose option lists differ from `st`'s only at the "-t" values. */
  ghost predicate ShapedLike(cfg: Config, st: State, args: seq<string>)
  {
    var nIn, nOut := |st.inputArgs|, |st.outputArgs|;
    && ListsLike(cfg, st, args)
    && args == CommandLine(cfg.ffmpegPath, InputArgsIn(nIn, args), cfg.inputs,
                           OutputArgsIn(cfg, nIn, nOut, args), cfg.outputPath, cfg.logLevel)
  }

  lemma ArgsShapedLike(cfg: Config, st: State, st': State)
    requires SlotsAgree(st, st')
    ensures ShapedLike(cfg, st, Args(cfg, st'))
  {
  }

  /** Every attempt of `log` ran a vector shaped like the one of `st`. */
  ghost predicate LogShapedLike(cfg: Config, st: State, log: seq<Attempt>)
  {
    forall j :: 0 <= j < |log| ==> ShapedLike(cfg, st, log[j].args)
  }

  /** The first attempt from `k` on, and the state the loop goes on from, if it does. */
  lemma Unroll(cfg: Config, st: State, k: nat, runs: seq<Run>) returns (a: Attempt, next: Option<State>)
    requires k < cfg.numRetries <= |runs|
    ensures a.args == Args(cfg, st)
    ensures next.None? ==> Drive(cfg, st, k, runs).log == [a]
    ensures next.Some? ==> Drive(cfg, st, k, runs).log == [a] + Drive(cfg, next.value, k + 1, runs).log
    ensures next.Some? ==> SlotsAgree(st, next.value)
    ensures next.Some? ==>
      a.failure.Some? && ArgsFollow(cfg, |st.inputArgs|, |st.outputArgs|, a.args, a.failure.value, Args(cfg, next.value))
    ensures next.Some? ==>
      next.value.lastErr == a.failure && Drive(cfg, st, k, runs).verdict == Drive(cfg, next.value, k + 1, runs).verdict
    ensures next.None? ==> var v := Drive(cfg, st, k, runs).verdict;
      !v.Exhausted? && (v == AlreadyExists ==> MarkerAttempt(a))
  {
    var r := Step(cfg, st, k, runs[k]);
    a := r.attempt;
    if r.Next? {
      StepKeepsSlots(cfg, st, k, runs[k]);
      StepArgsFollow(cfg, st, k, runs[k]);
      next := Some(r.st);
    } else {
      StopVerdict(cfg, st, k, runs[k]);
      next := None;
    }
  }

  /**
   * How the option lists in `after` follow from those in `before` and the
   * failure `e` of the attempt that ran `before`; `nIn` and `nOut` are the
   * lengths of the caller's lists.
   */
  ghost predicate ArgsFollow(cfg: Config, nIn: nat, nOut: nat, before: seq<string>, e: Error, after: seq<string>)
  {
    var n := nIn + |cfg.inputs| + nOut + 4;
    && |before| == n && |after| == n
    && var old_ := (InputArgsIn(nIn, before), OutputArgsIn(cfg, nIn, nOut, before));
       var new_ := (InputArgsIn(nIn, after), OutputArgsIn(cfg, nIn, nOut, after));
       && after == CommandLine(cfg.ffmpegPath, new_.0, cfg.inputs, new_.1, cfg.outputPath, cfg.logLevel)
       && if e.IncorrectDurationError? then AdjustDuration(old_.0, old_.1, e.target - e.actual, cfg.codec) == Ok(new_)
          else new_ == old_
  }

  /** Attempt `j + 1` of `log` runs what attempt `j` and its failure call for. */
  ghost predicate NextAttemptArgs(cfg: Config, nIn: nat, nOut: nat, log: seq<Attempt>, j: nat)
  {
    j + 1 < |log| && log[j].failure.Some? && ArgsFollow(cfg, nIn, nOut, log[j].args, log[j].failure.value, log[j + 1].args)
  }

  ghost predicate FixesCarry(cfg: Config, nIn: nat, nOut: nat, log: seq<Attempt>)
  {
    forall j: nat :: j < |log| - 1 ==> NextAttemptArgs(cfg, nIn, nOut, log, j)
  }

  lemma StepArgsFollow(cfg: Config, st: State, k: int, run: Run)
    requires Step(cfg, st, k, run).Next?
    ensures var r := Step(cfg, st, k, run);
      ArgsFollow(cfg, |st.inputArgs|, |st.outputArgs|, Args(cfg, st), r.attempt.failure.value, Args(cfg, r.st))
  {
    var r := Step(cfg, st, k, run);
    var e := r.attempt.failure.value;
    var h := Handle(cfg, st, k, run.fileAfter, Args(cfg, st), e);
    assert r == h;
    HandleKeepsSlots(cfg, st, k, run.fileAfter, Args(cfg, st), e);
    var nIn, nOut := |st.inputArgs|, |st.outputArgs|;
    assert InputArgsIn(nIn, Args(cfg, st)) == st.inputArgs;
    assert OutputArgsIn(cfg, nIn, nOut, Args(cfg, st)) == st.outputArgs;
    assert InputArgsIn(nIn, Args(cfg, r.st)) == r.st.inputArgs;
    assert OutputArgsIn(cfg, nIn, nOut, Args(cfg, r.st)) == r.st.outputArgs;
  }

  /** Prepending an attempt whose fix the next one carries keeps every fix carried. */
  lemma ConsCarry(cfg: Config, nIn: nat, nOut: nat, a: Attempt, rest: seq<Attempt>)
    requires |rest| > 0 ==> a.failure.Some? && ArgsFollow(cfg, nIn, nOut, a.args, a.failure.value, rest[0].args)
    requires FixesCarry(cfg, nIn, nOut, rest)
    ensures FixesCarry(cfg, nIn, nOut, [a] + rest)
  {
    var log := [a] + rest;
    forall j: nat | j < |log| - 1
      ensures NextAttemptArgs(cfg, nIn, nOut, log, j)
    {
      if j > 0 {
        assert NextAttemptArgs(cfg, nIn, nOut, rest, j - 1);
        assert log[j] == rest[j - 1] && log[j + 1] == rest[j];
      } else {
        assert log[0] == a && log[1] == rest[0];
      }
    }
  }

  /**
   * A duration failure's fix is what the next attempt runs with; any other
   * failure leaves the option lists as they were.
   */
  lemma {:induction false} FixCarriesToNextAttempt(cfg: Config, st: State, k: nat, runs: seq<Run>)
    requires cfg.numRetries <= |runs|
    ensures FixesCarry(cfg, |st.inputArgs|, |st.outputArgs|, Drive(cfg, st, k, runs).log)
    ensures |Drive(cfg, st, k, runs).log| > 0 ==> Drive(cfg, st, k, runs).log[0].args == Args(cfg, st)
    decreases cfg.numRetries - k
  {
    if k < cfg.numRetries {
      var a, next := Unroll(cfg, st, k, runs);
      if next.Some? {
        var st' := next.value;
        FixCarriesToNextAttempt(cfg, st', k + 1, runs);
        ConsCarry(cfg, |st.inputArgs|, |st.outputArgs|, a, Drive(cfg, st', k + 1, runs).log);
      } else {
        ConsCarry(cfg, |st.inputArgs|, |st.outputArgs|, a, []);
        assert [a] + [] == [a];
      }
    }
  }

  /** The option lists after a handled failure agree with those before outside their "-t" values. */
  lemma FollowSlots(cfg: Config, i0: seq<string>, o0: seq<string>, e: Error, i1: seq<string>, o1: seq<string>)
    requires if e.IncorrectDurationError? then AdjustDuration(i0, o0, e.target - e.actual, cfg.codec) == Ok((i1, o1))
             else (i1, o1) == (i0, o0)
    ensures SameOutsideSlot(i0, i1) && SameOutsideSlot(o0, o1)
  {
    if e.IncorrectDurationError? {
      AdjustKeepsSlots(i0, o0, e.target - e.actual, cfg.codec);
    } else {
      SameOutsideSlotRefl(i0);
      SameOutsideSlotRefl(o0);
    }
  }

  /** The option lists of a vector that follows one like `st0`'s are like `st0`'s too. */
  lemma FollowLists(cfg: Config, st0: State, before: seq<string>, e: Error, after: seq<string>)
    requires ListsLike(cfg, st0, before)
    requires ArgsFollow(cfg, |st0.inputArgs|, |st0.outputArgs|, before, e, after)
    ensures ListsLike(cfg, st0, after)
  {
    var nIn, nOut := |st0.inputArgs|, |st0.outputArgs|;
    var i0, o0 := InputArgsIn(nIn, before), OutputArgsIn(cfg, nIn, nOut, before);
    var i1, o1 := InputArgsIn(nIn, after), OutputArgsIn(cfg, nIn, nOut, after);
    FollowSlots(cfg, i0, o0, e, i1, o1);
    SameOutsideSlotTrans(st0.inputArgs, i0, i1);
    SameOutsideSlotTrans(st0.outputArgs, o0, o1);
  }

  lemma SameOutsideSlotTrans(a: seq<string>, b: seq<string>, c: seq<string>)
    requires SameOutsideSlot(a, b) && SameOutsideSlot(b, c)
    ensures SameOutsideSlot(a, c)
  {
  }

  /** Each attempt of `log` after one whose lists are like `st`'s has lists like `st`'s too. */
  ghost predicate ListsSteps(cfg: Config, st: State, log: seq<Attempt>)
  {
    forall i :: 0 <= i < |log| - 1 ==> ListsStep(cfg, st, log, i)
  }

  ghost predicate ListsStep(cfg: Config, st: State, log: seq<Attempt>, i: nat)
    requires i + 1 < |log|
  {
    ListsLike(cfg, st, log[i].args) ==> ListsLike(cfg, st, log[i + 1].args)
  }

  lemma CarriedSteps(cfg: Config, st: State, log: seq<Attempt>)
    requires FixesCarry(cfg, |st.inputArgs|, |st.outputArgs|, log)
    ensures ListsSteps(cfg, st, log)
  {
    forall i | 0 <= i < |log| - 1
      ensures ListsStep(cfg, st, log, i)
    {
      assert NextAttemptArgs(cfg, |st.inputArgs|, |st.outputArgs|, log, i);
      if ListsLike(cfg, st, log[i].args) {
        FollowLists(cfg, st, log[i].args, log[i].failure.value, log[i + 1].args);
      }
    }
  }

  /** Along a log whose steps keep the lists like `st`'s and whose first vector is that of `st`, so do all. */
  lemma {:induction false} CarriedLists(cfg: Config, st: State, log: seq<Attempt>, j: nat)
    requires ListsSteps(cfg, st, log)
    requires j < |log| && ListsLike(cfg, st, log[0].args)
    ensures ListsLike(cfg, st, log[j].args)
  {
    if j > 0 {
      CarriedLists(cfg, st, log, j - 1);
      assert ListsStep(cfg, st, log, j - 1);
    }
  }

  /** In a log whose fixes carry over and whose first vector is that of `st`, every vector is a full command line. */
  lemma FramedAt(cfg: Config, st: State, log: seq<Attempt>, j: nat)
    requires FixesCarry(cfg, |st.inputArgs|, |st.outputArgs|, log)
    requires j < |log| && log[0].args == Args(cfg, st)
    ensures var nIn, nOut, args := |st.inputArgs|, |st.outputArgs|, log[j].args;
      && |args| == nIn + |cfg.inputs| + nOut + 4
      && args == CommandLine(cfg.ffmpegPath, InputArgsIn(nIn, args), cfg.inputs,
                             OutputArgsIn(cfg, nIn, nOut, args), cfg.outputPath, cfg.logLevel)
  {
    if j > 0 {
      assert NextAttemptArgs(cfg, |st.inputArgs|, |st.outputArgs|, log, j - 1);
    }
  }

  /** A log whose fixes carry over and whose first vector is that of `st` runs vectors shaped like it throughout. */
  lemma LogShaped(cfg: Config, st: State, log: seq<Attempt>)
    requires FixesCarry(cfg, |st.inputArgs|, |st.outputArgs|, log)
    requires |log| > 0 ==> log[0].args == Args(cfg, st)
    ensures LogShapedLike(cfg, st, log)
  {
    if |log| > 0 {
      SameOutsideSlotRefl(st.inputArgs);
      SameOutsideSlotRefl(st.outputArgs);
      ArgsShapedLike(cfg, st, st);
      CarriedSteps(cfg, st, log);
      forall j | 0 <= j < |log| ensures ShapedLike(cfg, st, log[j].args) {
        CarriedLists(cfg, st, log, j);
        FramedAt(cfg, st, log, j);
      }
    }
  }

  /**
   * Every attempt runs `[ffmpeg_path] + input_args + inputs + output_args + [...]`
   * with the caller's lists changed at most at their "-t" values, and the
   * first attempt runs them unchanged.
   */
  lemma ArgsKeepShape(cfg: Config, st: State, k: nat, runs: seq<Run>)
    requires cfg.numRetries <= |runs|
    ensures var o := Drive(cfg, st, k, runs);
      && LogShapedLike(cfg, st, o.log)
      && (|o.log| > 0 ==> o.log[0].args == Args(cfg, st))
  {
    FixCarriesToNextAttempt(cfg, st, k, runs);
    LogShaped(cfg, st, Drive(cfg, st, k, runs).log);
  }

  /**
   * Deletion on exhaustion: a file is still on disk after the last attempt
   * only if that attempt was an HTTP error, or a duration or generic
   * validation failure at the last retry (those keep the file).
   */
  lemma {:induction false} ExhaustedLeavesFileOnlyWhen(cfg: Config, st: State, k: nat, runs: seq<Run>)
    requires cfg.numRetries <= |runs|
    ensures var o := Drive(cfg, st, k, runs);
      o.verdict.Exhausted? && |o.log| > 0 && o.state.file.Present? ==>
        var last := o.log[|o.log| - 1];
        last.failure.Some? &&
        var e := last.failure.value;
        || (e.SubprocessError? && MatchesHttpError(RStrip(e.stderr)))
        || (k + |o.log| == cfg.numRetries && (e.IncorrectDurationError? || e.ValidationError?))
    decreases cfg.numRetries - k
  {
    if k < cfg.numRetries {
      var r := Step(cfg, st, k, runs[k]);
      if r.Next? {
        ExhaustedLeavesFileOnlyWhen(cfg, r.st, k + 1, runs);
        AttemptBound(cfg, r.st, k + 1, runs);
        var o, rest := Drive(cfg, st, k, runs), Drive(cfg, r.st, k + 1, runs);
        assert o.log == [r.attempt] + rest.log;
        if |rest.log| > 0 {
          assert o.log[|o.log| - 1] == rest.log[|rest.log| - 1];
        }
      }
    }
  }

  // ---------------------------------------------------------------------
  // ffmpeg
  // ---------------------------------------------------------------------

  function ListOf(a: array?<string>): seq<string>
    reads a
  {
    if a == null then [] else a[..]
  }

  /** The duration fix on the two lists, in place. */
  method AdjustInPlace(ia: array<string>, oa: array<string>, diff: real, codec: FloatCodec) returns (err: Option<Error>)
    requires ia != oa
    modifies ia, oa
    ensures match AdjustDuration(old(ia[..]), old(oa[..]), diff, codec)
      case Ok(lists) => err.None? && ia[..] == lists.0 && oa[..] == lists.1
      case Err(x) => err == Some(x) && ia[..] == old(ia[..]) && oa[..] == old(oa[..])
  {
    var slot := DurationSlot(ia[..]);
    if slot.Some? {
      var j := slot.value;
      if j >= ia.Length {
        return Some(IndexError);
      }
      var v := codec.parse(ia[j]);
      if v.Some? {
        ia[j] := codec.format(v.value + diff);
        return None;
      }
    }
    var slot' := DurationSlot(oa[..]);
    if slot'.None? {
      return Some(ValueError(NoDurationFlag));
    }
    var j := slot'.value;
    if j >= oa.Length {
      return Some(IndexError);
    }
    var v := codec.parse(oa[j]);
    if v.None? {
      return Some(ValueError(DurationNotANumber));
    }
    oa[j] := codec.format(v.value + diff);
    err := None;
  }

  /** The except clauses of one attempt; `stop` is how the loop ends here, if it does. */
  method Recover(cfg: Config, ia: array<string>, oa: array<string>, k: int, file: FileState,
                 ghost args: seq<string>, e: Error, ghost st: State)
    returns (file': FileState, removed: bool, stop: Option<Verdict>)
    requires ia != oa && st.inputArgs == ia[..] && st.outputArgs == oa[..]
    modifies ia, oa
    ensures var r := Handle(cfg, st, k, file, args, e);
      && removed == r.attempt.removed && file' == r.st.file
      && (stop.None? <==> r.Next?) && (r.Stop? ==> stop == Some(r.verdict))
      && ia[..] == r.st.inputArgs && oa[..] == r.st.outputArgs
  {
    file', removed, stop := file, false, None;
    match e {
      case SubprocessError(_, _, _, stderr) =>
        var s := RStrip(stderr);
        if EndsWith(s, ALREADY_EXISTS) {
          stop := Some(AlreadyExists);
        } else if !MatchesHttpError(s) && file.Present? {
          file', removed := Absent, true;
        }
      case IncorrectDurationError(_, target, actual) =>
        if k < cfg.numRetries - 1 && file.Present? {
          file', removed := Absent, true;
        }
        var err := AdjustInPlace(ia, oa, target - actual, cfg.codec);
        if err.Some? {
          stop := Some(Raised(err.value));
        }
      case UnopenableFileError(_) =>
        if file.Present? {
          file', removed := Absent, true;
        }
      case ValidationError(_, _) =>
        if k < cfg.numRetries - 1 && file.Present? {
          file', removed := Absent, true;
        }
      case _ =>
        stop := Some(Raised(e));
    }
  }

  /** One pass of the loop body on the lists in place: the try block, then its except clauses. */
  method RunAttempt(cfg: Config, ia: array<string>, oa: array<string>, k: int, file: FileState,
                    lastErr: Option<Error>, run: Run)
    returns (file': FileState, attempt: Attempt, stop: Option<Verdict>)
    requires ia != oa
    modifies ia, oa
    ensures var r := Step(cfg, State(old(ia[..]), old(oa[..]), file, lastErr), k, run);
      && attempt == r.attempt && file' == r.st.file
      && ia[..] == r.st.inputArgs && oa[..] == r.st.outputArgs
      && (stop.None? <==> r.Next?) && (r.Stop? ==> stop == Some(r.verdict))
  {
    ghost var st := State(ia[..], oa[..], file, lastErr);
    var args := [cfg.ffmpegPath] + ia[..] + cfg.inputs + oa[..] + [cfg.outputPath, "-loglevel", cfg.logLevel];
    assert args == Args(cfg, st);
    var failure: Option<Error> := None;
    var res := RunCommand(args, run.result);
    if res.Err? {
      failure := Some(res.error);
    } else if cfg.validation.Some? {
      var v := cfg.validation.value;
      var check := ValidateAudio(cfg.outputPath, run.fileAfter, v.audioInfo, v.endPastVideoEnd);
      if check.Failed? {
        failure := Some(check.error);
      }
    }
    assert failure == AttemptFailure(cfg, args, run);
    if failure.None? {
      file', attempt, stop := run.fileAfter, Attempt(args, None, false), Some(Validated);
    } else {
      var removed;
      file', removed, stop := Recover(cfg, ia, oa, k, run.fileAfter, args, failure.value, st);
      attempt := Attempt(args, failure, removed);
    }
  }

  /** `for attempt in range(num_retries)` with its `else`, on the lists in place. */
  method RetryLoop(cfg: Config, ia: array<string>, oa: array<string>, file0: FileState, runs: seq<Run>)
    returns (verdict: Verdict, file: FileState, attempts: seq<Attempt>)
    requires ia != oa && cfg.numRetries <= |runs|
    modifies ia, oa
    ensures var o := Drive(cfg, State(old(ia[..]), old(oa[..]), file0, None), 0, runs);
      verdict == o.verdict && file == o.state.file && attempts == o.log
      && ia[..] == o.state.inputArgs && oa[..] == o.state.outputArgs
  {
    ghost var st0 := State(ia[..], oa[..], file0, None);
    file, attempts := file0, [];
    var lastErr: Option<Error> := None;
    var k := 0;
    while k < cfg.numRetries
      invariant 0 <= k
      invariant Drive(cfg, st0, 0, runs) == Prepend(attempts, Drive(cfg, State(ia[..], oa[..], file, lastErr), k, runs))
      decreases cfg.numRetries - k
    {
      ghost var st := State(ia[..], oa[..], file, lastErr);
      ghost var r := Step(cfg, st, k, runs[k]);
      var attempt, stop;
      file, attempt, stop := RunAttempt(cfg, ia, oa, k, file, lastErr, runs[k]);
      attempts := attempts + [attempt];
      if stop.Some? {
        assert Drive(cfg, st, k, runs) == Outcome(r.st, r.verdict, [attempt]);
        verdict := stop.value;
        return;
      }
      lastErr := attempt.failure;
      assert r.st == State(ia[..], oa[..], file, lastErr);
      assert Drive(cfg, st, k, runs) == Prepend([attempt], Drive(cfg, r.st, k + 1, runs));
      k := k + 1;
    }
    verdict := Exhausted(lastErr);
  }

  /**
   * `ffmpeg(ffmpeg_path, input_path, output_path, input_args, output_args,
   * log_level, num_retries, validate_audio, validation_args)`.  The option
   * lists are updated in place, as Python lists are; `runs[k]` is what the
   * world does on attempt `k`.  Returns how the loop ended, the final state of
   * the output path and the attempts made.
   */
  method Ffmpeg(ffmpegPath: string, inputPath: InputPath, outputPath: string,
                inputArgs: array?<string>, outputArgs: array?<string>, logLevel: string,
                numRetries: int, validation: Option<Validation>, codec: FloatCodec,
                initialFile: FileState, runs: seq<Run>)
    returns (verdict: Verdict, file: FileState, attempts: seq<Attempt>)
    requires numRetries <= |runs|
    requires inputArgs != null && inputArgs == outputArgs ==> inputArgs.Length == 0
    modifies inputArgs, outputArgs
    ensures InputsFor(inputPath).Err? ==>
      verdict == Raised(InputsFor(inputPath).error) && file == initialFile && attempts == []
      && ListOf(inputArgs) == old(ListOf(inputArgs)) && ListOf(outputArgs) == old(ListOf(outputArgs))
    ensures InputsFor(inputPath).Ok? ==>
      var cfg := Config(ffmpegPath, InputsFor(inputPath).value, outputPath, logLevel, numRetries, validation, codec);
      var o := Drive(cfg, State(old(ListOf(inputArgs)), old(ListOf(outputArgs)), initialFile, None), 0, runs);
      verdict == o.verdict && file == o.state.file && attempts == o.log
      && ListOf(inputArgs) == o.state.inputArgs && ListOf(outputArgs) == o.state.outputArgs
  {
    var built := BuildInputs(inputPath);
    if built.Err? {
      verdict, file, attempts := Raised(built.error), initialFile, [];
      return;
    }
    // `if not input_args: input_args = []`
    var ia: array<string>, oa: array<string>;
    if inputArgs == null || inputArgs.Length == 0 {
      ia := new string[0];
    } else {
      ia := inputArgs;
    }
    if outputArgs == null || outputArgs.Length == 0 {
      oa := new string[0];
    } else {
      oa := outputArgs;
    }
    assert ia[..] == ListOf(inputArgs) && oa[..] == ListOf(outputArgs);
    var cfg := Config(ffmpegPath, built.value, outputPath, logLevel, numRetries, validation, codec);
    verdict, file, attempts := RetryLoop(cfg, ia, oa, initialFile, runs);
  }
}
