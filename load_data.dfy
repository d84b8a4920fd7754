/**
 * The data loader of the classifier: cutting each stereo recording into
 * three overlapping two-second windows, zero-padding an MFCC matrix to a
 * square, and collecting sample rows, MFCC rows and labels per class
 * directory with an early stop.  The MFCC transform itself is a function
 * parameter; numpy's shape errors are the `Failure` values.
 */
module LoadData {
  import opened Builtins

  /** One stereo sample as `soundfile` returns it. */
  datatype Frame = Frame(ch0: real, ch1: real)

  /** A two-second window of frames, and a row of `X`. */
  type Frames = seq<Frame>

  /** Every row as wide as the first. */
  predicate IsRectangular(m: seq<seq<real>>)
  {
    forall i :: 0 <= i < |m| ==> |m[i]| == Width(m)
  }

  function Width(m: seq<seq<real>>): nat
  {
    if |m| == 0 then 0 else |m[0]|
  }

  /** A 2-d numpy array of floats. */
  type Matrix = m: seq<seq<real>> | IsRectangular(m)

  /** The ValueError numpy raises, by cause. */
  datatype Failure =
    | ReshapeMismatch   // a reshape whose target shape does not fit the element count
    | WindowTooShort    // a window slice with fewer than `2 * samplerate` rows
    | NegativePadding   // `np.pad` with a negative pad width

  /** A file of an AudioSet class directory, decoded by `sf.read`. */
  datatype SoundFile = SoundFile(data: seq<Frame>, samplerate: nat)

  const MAX_PAD_LEN: int := 256
  /** Frames per row of `X`: the `96000` of `reshape(-1, 96000, 2, 1)`. */
  const ROW_FRAMES: nat := 96000

  function Zeros(n: nat): (r: seq<real>)
    ensures |r| == n && forall i :: 0 <= i < n ==> r[i] == 0.0
  {
    seq(n, _ => 0.0)
  }

  function Repeat<T>(x: T, n: nat): (r: seq<T>)
    ensures |r| == n && forall i :: 0 <= i < n ==> r[i] == x
  {
    seq(n, _ => x)
  }

  // ---------------------------------------------------------------------
  // convert_data_to_mfcc
  // ---------------------------------------------------------------------

  /**
   * `np.pad(m, ((0, n - rows), (0, n - cols)), mode='constant')`: zeros
   * below and to the right, up to `n x n`.
   */
  function Pad(m: Matrix, n: int): (r: Result<Matrix, Failure>)
    ensures r.Ok? <==> |m| <= n && Width(m) <= n
    ensures r.Err? ==> r.error == NegativePadding
    ensures r.Ok? ==> |r.value| == n && forall i :: 0 <= i < n ==> |r.value[i]| == n
    ensures r.Ok? ==> forall i, j :: 0 <= i < n && 0 <= j < n ==>
      r.value[i][j] == if i < |m| && j < Width(m) then m[i][j] else 0.0
  {
    var padWidth, padHeight := n - Width(m), n - |m|;
    if padWidth < 0 || padHeight < 0 then Err(NegativePadding)
    else
      var p := seq(n, i requires 0 <= i < n => if i < |m| then m[i] + Zeros(padWidth) else Zeros(n));
      assert forall i :: 0 <= i < n ==> p[i] == if i < |m| then m[i] + Zeros(padWidth) else Zeros(n);
      assert forall i :: 0 <= i < |m| ==> |m[i]| == Width(m);
      assert forall i :: 0 <= i < |p| ==> |p[i]| == n;
      Ok(p)
  }

  /** The top-left `rows x cols` block. */
  function Crop(p: seq<seq<real>>, rows: nat, cols: nat): seq<seq<real>>
    requires rows <= |p| && forall i :: 0 <= i < rows ==> cols <= |p[i]|
  {
    seq(rows, i requires 0 <= i < rows => p[i][..cols])
  }

  /** Padding keeps the matrix in the top-left corner: cropping it back out gives it again. */
  lemma PadThenCrop(m: Matrix, n: int)
    requires Pad(m, n).Ok?
    ensures Crop(Pad(m, n).value, |m|, Width(m)) == m
  {
    var p := Pad(m, n).value;
    var c := Crop(p, |m|, Width(m));
    forall i | 0 <= i < |m|
      ensures c[i] == m[i]
    {
      assert |m[i]| == Width(m);
      assert forall j :: 0 <= j < Width(m) ==> c[i][j] == p[i][j] == m[i][j];
    }
  }

  /**
   * `convert_data_to_mfcc(wave, sampling_rate)`; `mfcc` stands for
   * `librosa.feature.mfcc`.  The `padding` argument has no effect.
   */
  function ConvertDataToMfcc(wave: seq<real>, samplingRate: nat, mfcc: (seq<real>, nat) -> Matrix): (r: Result<Matrix, Failure>)
    // the transform fits the 256 x 256 picture, or `np.pad` raises on a negative width
    ensures r.Ok? <==> |mfcc(wave, samplingRate)| <= MAX_PAD_LEN && Width(mfcc(wave, samplingRate)) <= MAX_PAD_LEN
    ensures r.Ok? ==> |r.value| == MAX_PAD_LEN && forall i :: 0 <= i < MAX_PAD_LEN ==> |r.value[i]| == MAX_PAD_LEN
    ensures r.Ok? ==> Crop(r.value, |mfcc(wave, samplingRate)|, Width(mfcc(wave, samplingRate))) == mfcc(wave, samplingRate)
  {
    var m := mfcc(wave, samplingRate);
    if Pad(m, MAX_PAD_LEN).Ok? then PadThenCrop(m, MAX_PAD_LEN); Pad(m, MAX_PAD_LEN)
    else Pad(m, MAX_PAD_LEN)
  }

  function Channel0(w: Frames): (r: seq<real>)
    ensures |r| == |w| && forall i :: 0 <= i < |w| ==> r[i] == w[i].ch0
  {
    seq(|w|, i requires 0 <= i < |w| => w[i].ch0)
  }

  /** The MFCC of channel 0 of each recording in turn, stopping at the first failure. */
  function ConvertAll(ws: seq<Frames>, samplingRate: nat, mfcc: (seq<real>, nat) -> Matrix): Result<seq<Matrix>, Failure>
  {
    if |ws| == 0 then Ok([])
    else match ConvertAll(ws[..|ws| - 1], samplingRate, mfcc)
      case Err(e) => Err(e)
      case Ok(ms) =>
        match ConvertDataToMfcc(Channel0(ws[|ws| - 1]), samplingRate, mfcc)
        case Err(e) => Err(e)
        case Ok(m) => Ok(ms + [m])
  }

  /** Success means one padded 256 x 256 matrix per recording, in order. */
  lemma {:induction false} ConvertAllShape(ws: seq<Frames>, samplingRate: nat, mfcc: (seq<real>, nat) -> Matrix)
    ensures ConvertAll(ws, samplingRate, mfcc).Ok? <==>
      forall i :: 0 <= i < |ws| ==> ConvertDataToMfcc(Channel0(ws[i]), samplingRate, mfcc).Ok?
    ensures ConvertAll(ws, samplingRate, mfcc).Ok? ==>
      var ms := ConvertAll(ws, samplingRate, mfcc).value;
      && |ms| == |ws|
      && forall i :: 0 <= i < |ws| ==> ms[i] == ConvertDataToMfcc(Channel0(ws[i]), samplingRate, mfcc).value
                                        && |ms[i]| == MAX_PAD_LEN && Width(ms[i]) == MAX_PAD_LEN
  {
    if |ws| > 0 {
      var front := ws[..|ws| - 1];
      ConvertAllShape(front, samplingRate, mfcc);
      assert forall i :: 0 <= i < |front| ==> front[i] == ws[i];
    }
  }

  /** The loop over recordings shared by `apply_mfcc` and `build_train_array`. */
  method ConvertEach(ws: seq<Frames>, samplingRate: nat, mfcc: (seq<real>, nat) -> Matrix)
    returns (r: Result<seq<Matrix>, Failure>)
    ensures r == ConvertAll(ws, samplingRate, mfcc)
  {
    var mfccX: seq<Matrix> := [];
    for i := 0 to |ws|
      invariant ConvertAll(ws[..i], samplingRate, mfcc) == Ok(mfccX)
    {
      assert ws[..i + 1][..i] == ws[..i];
      var m := ConvertDataToMfcc(Channel0(ws[i]), samplingRate, mfcc);
      if m.Err? {
        PrefixErrSticks(ws, samplingRate, mfcc, i + 1);
        return Err(m.error);
      }
      mfccX := mfccX + [m.value];
    }
    assert ws[..|ws|] == ws;
    return Ok(mfccX);
  }

  lemma {:induction false} PrefixErrSticks(ws: seq<Frames>, samplingRate: nat, mfcc: (seq<real>, nat) -> Matrix, n: nat)
    requires n <= |ws| && ConvertAll(ws[..n], samplingRate, mfcc).Err?
    ensures ConvertAll(ws, samplingRate, mfcc) == ConvertAll(ws[..n], samplingRate, mfcc)
    decreases |ws| - n
  {
    if n < |ws| {
      assert ws[..n + 1][..n] == ws[..n];
      PrefixErrSticks(ws, samplingRate, mfcc, n + 1);
    } else {
      assert ws[..n] == ws;
    }
  }

  /** `apply_mfcc(X, label, sampling_rate)`: an MFCC per recording and a label per recording. */
  method ApplyMfcc(x: seq<Frames>, className: string, samplingRate: nat, mfcc: (seq<real>, nat) -> Matrix)
    returns (r: Result<(seq<Matrix>, seq<string>), Failure>)
    ensures r.Ok? <==> ConvertAll(x, samplingRate, mfcc).Ok?
    ensures r.Err? ==> r == Err(ConvertAll(x, samplingRate, mfcc).error)
    ensures r.Ok? ==> r.value.0 == ConvertAll(x, samplingRate, mfcc).value
    ensures r.Ok? ==> |r.value.0| == |r.value.1| == |x| && forall i :: 0 <= i < |x| ==> r.value.1[i] == className
  {
    var mfccX := ConvertEach(x, samplingRate, mfcc);
    if mfccX.Err? {
      return Err(mfccX.error);
    }
    ConvertAllShape(x, samplingRate, mfcc);
    var labels := Repeat(className, |x|);
    return Ok((mfccX.value, labels));
  }

  // ---------------------------------------------------------------------
  // shorten_recording
  // ---------------------------------------------------------------------

  /** Start row of window `k`: the values of `range(9600, 38400, 9600)`. */
  function WindowStart(k: nat): nat
  {
    9600 * (k + 1)
  }

  /**
   * The three windows of `shorten_recording`: `2 * samplerate` rows from
   * rows 9600, 19200 and 28800.
   */
  function Windows(data: seq<Frame>, samplerate: nat): (r: Result<seq<Frames>, Failure>)
    ensures r.Ok? <==> samplerate > 0 && WindowStart(2) + 2 * samplerate <= |data|
    // `reshape(-1, 0, 2)` cannot infer its -1 and raises; a short recording fails at its slice
    ensures samplerate == 0 ==> r == Err(ReshapeMismatch)
    ensures samplerate > 0 && r.Err? ==> r.error == WindowTooShort
  {
    var n := 2 * samplerate;
    if n == 0 then Err(ReshapeMismatch)
    else if |data| < WindowStart(2) + n then Err(WindowTooShort)
    else Ok(seq(3, k requires 0 <= k < 3 => data[WindowStart(k)..WindowStart(k) + n]))
  }

  /**
   * The windows are contiguous slices 9600 rows apart, so for any rate
   * above 4800 Hz consecutive windows share `2 * samplerate - 9600` frames.
   */
  lemma WindowsOverlap(data: seq<Frame>, samplerate: nat, k: nat, i: nat)
    requires Windows(data, samplerate).Ok? && k < 2 && 9600 + i < 2 * samplerate
    ensures var ws := Windows(data, samplerate).value;
      |ws| == 3 && |ws[k]| == |ws[k + 1]| == 2 * samplerate
      && ws[k + 1][i] == ws[k][9600 + i] == data[WindowStart(k + 1) + i]
  {
  }

  /** Python's clamped slice `data[a:b]`. */
  function PySlice<T>(s: seq<T>, a: nat, b: nat): (r: seq<T>)
    ensures a < b ==> (|r| == b - a <==> b <= |s|)
    ensures a <= b <= |s| ==> r == s[a..b]
  {
    var hi := if b <= |s| then b else |s|;
    var lo := if a <= hi then a else hi;
    s[lo..hi]
  }

  /** `shorten_recording(data, samplerate)`. */
  method ShortenRecording(data: seq<Frame>, samplerate: nat) returns (r: Result<seq<Frames>, Failure>)
    ensures r == Windows(data, samplerate)
  {
    var duration := 2;
    var samplesPerNSeconds := samplerate * duration;
    if samplesPerNSeconds == 0 {
      return Err(ReshapeMismatch);
    }
    var xSamples: seq<Frames> := [];
    var tStart := 9600;
    while tStart < 38400
      invariant tStart % 9600 == 0 && 9600 <= tStart <= 38400
      invariant |xSamples| == tStart / 9600 - 1
      invariant tStart > 9600 ==> tStart - 9600 + samplesPerNSeconds <= |data|
      invariant forall k :: 0 <= k < |xSamples| ==>
        WindowStart(k) + samplesPerNSeconds <= |data| && xSamples[k] == data[WindowStart(k)..WindowStart(k) + samplesPerNSeconds]
      decreases 38400 - tStart
    {
      var window := PySlice(data, tStart, tStart + samplesPerNSeconds);
      if |window| != samplesPerNSeconds {
        return Err(WindowTooShort);
      }
      xSamples := xSamples + [window];
      tStart := tStart + 9600;
    }
    r := Ok(xSamples);
    assert r.value == Windows(data, samplerate).value;
  }

  // ---------------------------------------------------------------------
  // build_train_array
  // ---------------------------------------------------------------------

  /** The frames of `ws`, one window after another (numpy's C order). */
  function Concat(ws: seq<Frames>): seq<Frame>
  {
    if |ws| == 0 then [] else ws[0] + Concat(ws[1..])
  }

  /** Cutting a frame sequence into rows of `ROW_FRAMES`. */
  function Rows(s: seq<Frame>): seq<Frames>
    requires |s| % ROW_FRAMES == 0
    decreases |s|
  {
    if |s| == 0 then [] else [s[..ROW_FRAMES]] + Rows(s[ROW_FRAMES..])
  }

  /** The rows are full and give back the frames, in order. */
  lemma {:induction false} RowsRoundTrip(s: seq<Frame>)
    requires |s| % ROW_FRAMES == 0
    ensures Concat(Rows(s)) == s && |Rows(s)| == |s| / ROW_FRAMES
    ensures forall i :: 0 <= i < |Rows(s)| ==> |Rows(s)[i]| == ROW_FRAMES
    decreases |s|
  {
    if |s| > 0 {
      RowsRoundTrip(s[ROW_FRAMES..]);
      var rs := Rows(s);
      assert rs[1..] == Rows(s[ROW_FRAMES..]);
    }
  }

  /** `X_samples.reshape(-1, 96000, 2, 1)`. */
  function ReshapeRows(ws: seq<Frames>): Result<seq<Frames>, Failure>
  {
    var flat := Concat(ws);
    if |flat| % ROW_FRAMES != 0 then Err(ReshapeMismatch) else Ok(Rows(flat))
  }

  /** What one file adds to `X` and to `X_mfcc`. */
  function FileRows(f: SoundFile, mfcc: (seq<real>, nat) -> Matrix): Result<(seq<Frames>, seq<Matrix>), Failure>
  {
    match Windows(f.data, f.samplerate)
    case Err(e) => Err(e)
    case Ok(ws) =>
      (match ReshapeRows(ws)
       case Err(e) => Err(e)
       case Ok(rows) =>
         (match ConvertAll(ws, f.samplerate, mfcc)
          case Err(e) => Err(e)
          case Ok(ms) => Ok((rows, ms))))
  }

  lemma ConcatThree(a: Frames, b: Frames, c: Frames)
    ensures Concat([a, b, c]) == a + b + c
  {
    assert [a, b, c][1..] == [b, c];
    assert [b, c][1..] == [c];
    assert [c][1..] == [];
    assert Concat([c]) == c;
    assert Concat([b, c]) == b + c;
  }

  /**
   * A file adds three MFCC rows but `samplerate / 16000` rows to `X`,
   * and the reshape fails unless the rate is a multiple of 16000 Hz: the
   * two counts agree exactly for 48000 Hz recordings.
   */
  lemma FileRowCounts(f: SoundFile, mfcc: (seq<real>, nat) -> Matrix)
    requires Windows(f.data, f.samplerate).Ok?
    ensures ReshapeRows(Windows(f.data, f.samplerate).value).Ok? <==> f.samplerate % 16000 == 0
    ensures FileRows(f, mfcc).Ok? ==>
      var (rows, ms) := FileRows(f, mfcc).value;
      && |ms| == 3
      && |rows| == f.samplerate / 16000
      && (forall i :: 0 <= i < |rows| ==> |rows[i]| == ROW_FRAMES)
      && (|rows| == |ms| <==> f.samplerate == 48000)
  {
    var ws := Windows(f.data, f.samplerate).value;
    var sr := f.samplerate;
    ConcatThree(ws[0], ws[1], ws[2]);
    assert ws == [ws[0], ws[1], ws[2]];
    var flat := Concat(ws);
    assert |flat| == 6 * sr;
    var q, rem := sr / 16000, sr % 16000;
    assert sr == 16000 * q + rem && 6 * sr == 96000 * q + 6 * rem && 6 * rem < 96000;
    assert |flat| % ROW_FRAMES == 6 * rem;
    if FileRows(f, mfcc).Ok? {
      RowsRoundTrip(flat);
      assert |flat| / ROW_FRAMES == q;
      ConvertAllShape(ws, sr, mfcc);
    }
  }

  /** The arrays built so far, and how many files were read. */
  datatype Arrays = Arrays(x: seq<Frames>, xMfcc: seq<Matrix>, filesRead: nat)

  /**
   * The loop of `build_train_array` over the directory listing `files`,
   * continuing from `acc`: each file's rows are appended, and the loop
   * ends after the first file that leaves more than `maxSamples` rows.
   */
  function Train(files: seq<SoundFile>, maxSamples: int, mfcc: (seq<real>, nat) -> Matrix, acc: Arrays): Result<Arrays, Failure>
    decreases |files|
  {
    if |files| == 0 then Ok(acc)
    else match FileRows(files[0], mfcc)
      case Err(e) => Err(e)
      case Ok((rows, ms)) =>
        var next := Arrays(acc.x + rows, acc.xMfcc + ms, acc.filesRead + 1);
        if |next.x| > maxSamples then Ok(next) else Train(files[1..], maxSamples, mfcc, next)
  }

  function Max0(n: int): nat
  {
    if n > 0 then n else 0
  }

  /**
   * The early stop: with at most `perFile` rows per file the row count
   * ends at most `perFile` above `maxSamples` (3 above it for 48000 Hz
   * recordings), and a file stays unread only when the count exceeds
   * `maxSamples`.
   */
  lemma {:induction false} TrainBound(files: seq<SoundFile>, maxSamples: int, mfcc: (seq<real>, nat) -> Matrix,
                                      acc: Arrays, perFile: nat)
    requires forall f :: f in files ==> f.samplerate / 16000 <= perFile
    requires |acc.x| <= Max0(maxSamples)
    requires Train(files, maxSamples, mfcc, acc).Ok?
    ensures var a := Train(files, maxSamples, mfcc, acc).value;
      && |a.x| <= Max0(maxSamples) + perFile
      && acc.filesRead <= a.filesRead <= acc.filesRead + |files|
      && (a.filesRead < acc.filesRead + |files| ==> |a.x| > maxSamples)
    decreases |files|
  {
    if |files| > 0 {
      var f := files[0];
      assert f in files;
      FileRowCounts(f, mfcc);
      var (rows, ms) := FileRows(f, mfcc).value;
      var next := Arrays(acc.x + rows, acc.xMfcc + ms, acc.filesRead + 1);
      if |next.x| <= maxSamples {
        assert forall g :: g in files[1..] ==> g in files;
        TrainBound(files[1..], maxSamples, mfcc, next, perFile);
      }
    }
  }

  /** With 48000 Hz recordings the sample rows and the MFCC rows stay equal in number. */
  lemma {:induction false} TrainRowsMatchAt48k(files: seq<SoundFile>, maxSamples: int, mfcc: (seq<real>, nat) -> Matrix,
                                               acc: Arrays)
    requires forall f :: f in files ==> f.samplerate == 48000
    requires |acc.x| == |acc.xMfcc|
    requires Train(files, maxSamples, mfcc, acc).Ok?
    ensures var a := Train(files, maxSamples, mfcc, acc).value;
      |a.x| == |a.xMfcc| == |acc.x| + 3 * (a.filesRead - acc.filesRead)
    decreases |files|
  {
    if |files| > 0 {
      var f := files[0];
      assert f in files;
      FileRowCounts(f, mfcc);
      var (rows, ms) := FileRows(f, mfcc).value;
      var next := Arrays(acc.x + rows, acc.xMfcc + ms, acc.filesRead + 1);
      if |next.x| <= maxSamples {
        assert forall g :: g in files[1..] ==> g in files;
        TrainRowsMatchAt48k(files[1..], maxSamples, mfcc, next);
      }
    }
  }

  /** What `build_train_array` returns. */
  datatype TrainArrays = TrainArrays(x: seq<Frames>, xMfcc: seq<Matrix>, labels: seq<string>, labelsMfcc: seq<string>)

  /** The arrays of one class directory, with a label per row. */
  function TrainArraysFor(className: string, maxSamples: int, files: seq<SoundFile>, mfcc: (seq<real>, nat) -> Matrix)
    : Result<TrainArrays, Failure>
  {
    match Train(files, maxSamples, mfcc, Arrays([], [], 0))
    case Err(e) => Err(e)
    case Ok(a) => Ok(TrainArrays(a.x, a.xMfcc, Repeat(className, |a.x|), Repeat(className, |a.xMfcc|)))
  }

  method ApplyFile(f: SoundFile, mfcc: (seq<real>, nat) -> Matrix) returns (r: Result<(seq<Frames>, seq<Matrix>), Failure>)
    ensures r == FileRows(f, mfcc)
  {
    var xSamples := ShortenRecording(f.data, f.samplerate);
    if xSamples.Err? {
      return Err(xSamples.error);
    }
    var ws := xSamples.value;
    var flat := Concat(ws);
    if |flat| % ROW_FRAMES != 0 {
      return Err(ReshapeMismatch);
    }
    var rows := Rows(flat);
    var ms := ConvertEach(ws, f.samplerate, mfcc);
    if ms.Err? {
      return Err(ms.error);
    }
    return Ok((rows, ms.value));
  }

  /**
   * `build_train_array(label, max_samples)`; `files` is the decoded
   * content of `os.listdir` of the class directory, in listing order.
   */
  method BuildTrainArray(className: string, maxSamples: int, files: seq<SoundFile>, mfcc: (seq<real>, nat) -> Matrix)
    returns (r: Result<TrainArrays, Failure>)
    ensures r == TrainArraysFor(className, maxSamples, files, mfcc)
    ensures r.Ok? ==> |r.value.labels| == |r.value.x| && |r.value.labelsMfcc| == |r.value.xMfcc|
  {
    var x: seq<Frames> := [];
    var xMfcc: seq<Matrix> := [];
    var i := 0;
    while i < |files|
      invariant 0 <= i <= |files|
      invariant Train(files, maxSamples, mfcc, Arrays([], [], 0)) == Train(files[i..], maxSamples, mfcc, Arrays(x, xMfcc, i))
    {
      var fileRows := ApplyFile(files[i], mfcc);
      if fileRows.Err? {
        return Err(fileRows.error);
      }
      assert files[i..][1..] == files[i + 1..];
      x := x + fileRows.value.0;
      xMfcc := xMfcc + fileRows.value.1;
      i := i + 1;
      if |x| > maxSamples {
        assert Train(files, maxSamples, mfcc, Arrays([], [], 0)) == Ok(Arrays(x, xMfcc, i));
        break;
      }
    }
    assert Train(files, maxSamples, mfcc, Arrays([], [], 0)) == Ok(Arrays(x, xMfcc, i));
    var labels := Repeat(className, |x|);
    var labelsMfcc := Repeat(className, |xMfcc|);
    return Ok(TrainArrays(x, xMfcc, labels, labelsMfcc));
  }

  // ---------------------------------------------------------------------
  // get_all_sound_data
  // ---------------------------------------------------------------------

  /** The three class directories, concatenated speech, silence, singing, with the raw labels. */
  function AllSoundData(maxSamples: int, speech: seq<SoundFile>, silence: seq<SoundFile>, singing: seq<SoundFile>,
                        mfcc: (seq<real>, nat) -> Matrix): Result<TrainArrays, Failure>
  {
    match TrainArraysFor("speech", maxSamples, speech, mfcc)
    case Err(e) => Err(e)
    case Ok(a) =>
      (match TrainArraysFor("silence", maxSamples, silence, mfcc)
       case Err(e) => Err(e)
       case Ok(b) =>
         (match TrainArraysFor("singing", maxSamples, singing, mfcc)
          case Err(e) => Err(e)
          case Ok(c) => Ok(TrainArrays(a.x + b.x + c.x, a.xMfcc + b.xMfcc + c.xMfcc,
                                       a.labels + b.labels + c.labels, a.labelsMfcc + b.labelsMfcc + c.labelsMfcc))))
  }

  /**
   * `get_all_sound_data(max_samples)` up to the label encoding; the three
   * listings are its directory inputs.
   */
  method GetAllSoundData(maxSamples: int, speech: seq<SoundFile>, silence: seq<SoundFile>, singing: seq<SoundFile>,
                         mfcc: (seq<real>, nat) -> Matrix)
    returns (r: Result<TrainArrays, Failure>)
    ensures r == AllSoundData(maxSamples, speech, silence, singing, mfcc)
  {
    var a := BuildTrainArray("speech", maxSamples, speech, mfcc);
    if a.Err? {
      return Err(a.error);
    }
    var b := BuildTrainArray("silence", maxSamples, silence, mfcc);
    if b.Err? {
      return Err(b.error);
    }
    var c := BuildTrainArray("singing", maxSamples, singing, mfcc);
    if c.Err? {
      return Err(c.error);
    }
    var x := a.value.x + b.value.x + c.value.x;
    var xMfcc := a.value.xMfcc + b.value.xMfcc + c.value.xMfcc;
    var labels := a.value.labels + b.value.labels + c.value.labels;
    var labelsMfcc := a.value.labelsMfcc + b.value.labelsMfcc + c.value.labelsMfcc;
    return Ok(TrainArrays(x, xMfcc, labels, labelsMfcc));
  }

  /**
   * Row `i` of the samples and label `i` come from the same directory:
   * speech rows first, then silence, then singing, labelled alike.
   */
  lemma AllSoundDataLabelsLineUp(maxSamples: int, speech: seq<SoundFile>, silence: seq<SoundFile>,
                                 singing: seq<SoundFile>, mfcc: (seq<real>, nat) -> Matrix, i: nat)
    requires AllSoundData(maxSamples, speech, silence, singing, mfcc).Ok?
    ensures var d := AllSoundData(maxSamples, speech, silence, singing, mfcc).value;
      var nSpeech := |TrainArraysFor("speech", maxSamples, speech, mfcc).value.x|;
      var nSilence := |TrainArraysFor("silence", maxSamples, silence, mfcc).value.x|;
      && |d.labels| == |d.x| && |d.labelsMfcc| == |d.xMfcc|
      && (i < |d.x| ==>
           && (i < nSpeech ==> d.labels[i] == "speech" && d.x[i] == TrainArraysFor("speech", maxSamples, speech, mfcc).value.x[i])
           && (nSpeech <= i < nSpeech + nSilence ==> d.labels[i] == "silence")
           && (nSpeech + nSilence <= i ==> d.labels[i] == "singing"))
  {
    var d := AllSoundData(maxSamples, speech, silence, singing, mfcc).value;
    var a := TrainArraysFor("speech", maxSamples, speech, mfcc).value;
    var b := TrainArraysFor("silence", maxSamples, silence, mfcc).value;
    var c := TrainArraysFor("singing", maxSamples, singing, mfcc).value;
    if i < |d.x| {
      if i < |a.x| {
        assert d.labels[i] == a.labels[i];
      } else if i < |a.x| + |b.x| {
        assert d.labels[i] == b.labels[i - |a.x|];
      } else {
        assert d.labels[i] == c.labels[i - |a.x| - |b.x|];
      }
    }
  }
}
