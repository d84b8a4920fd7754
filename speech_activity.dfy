/**
 * The array logic of the Android recogniser: the recording buffer and its
 * bounded append, the inference window cut out of it, the transposing copy
 * of the MFCC coefficients into a 256 x 256 zero buffer, and the two scans
 * that pick the most probable class.  Java `float`/`double` values are
 * exact reals here; only comparisons and the one division are used.
 */
module SoundClassificationApp {
  import opened Builtins

  /** Java `short`. */
  newtype Short = x: int | -32768 <= x < 32768

  const SAMPLE_RATE: int := 48000
  const SAMPLE_DURATION_MS: int := 5000
  const INFERENCE_DURATION_MS: int := 2000
  const RECORDING_LENGTH: int := SAMPLE_RATE * SAMPLE_DURATION_MS / 1000
  const INFERENCE_LENGTH: int := SAMPLE_RATE * INFERENCE_DURATION_MS / 1000
  const INT_MAX: int := 0x7FFF_FFFF

  /** `time_offset_seconds * 48000` in `recognize`. */
  const OFFSET_IDX: int := 2 * 48000

  /** The products are computed in 32-bit `int`; neither overflows. */
  lemma LengthConstants()
    ensures SAMPLE_RATE * SAMPLE_DURATION_MS <= INT_MAX && SAMPLE_RATE * INFERENCE_DURATION_MS <= INT_MAX
    ensures RECORDING_LENGTH == 240000 && INFERENCE_LENGTH == 96000
    ensures OFFSET_IDX + INFERENCE_LENGTH <= RECORDING_LENGTH
  {
  }

  // ---------------------------------------------------------------------
  // Recording buffer
  // ---------------------------------------------------------------------

  /** The samples of `chunks`, one after the other. */
  function Flatten(chunks: seq<seq<Short>>): seq<Short>
  {
    if |chunks| == 0 then [] else Flatten(chunks[..|chunks| - 1]) + chunks[|chunks| - 1]
  }

  lemma FlattenStep(chunks: seq<seq<Short>>, k: nat)
    requires k < |chunks|
    ensures Flatten(chunks[..k + 1]) == Flatten(chunks[..k]) + chunks[k]
  {
    assert chunks[..k + 1][..k] == chunks[..k];
  }

  /** `buf` with `part` written from `off` on and every other element kept. */
  function Overwrite(buf: seq<Short>, off: nat, part: seq<Short>): (r: seq<Short>)
    requires off + |part| <= |buf|
    ensures |r| == |buf|
    ensures forall i :: 0 <= i < |buf| ==> r[i] == if off <= i < off + |part| then part[i - off] else buf[i]
  {
    buf[..off] + part + buf[off + |part|..]
  }

  /** Writing `a` and then `b` right after it is writing `a + b`. */
  lemma OverwriteTwice(buf: seq<Short>, off: nat, a: seq<Short>, b: seq<Short>)
    requires off + |a| + |b| <= |buf|
    ensures Overwrite(Overwrite(buf, off, a), off + |a|, b) == Overwrite(buf, off, a + b)
  {
    var l, r := Overwrite(Overwrite(buf, off, a), off + |a|, b), Overwrite(buf, off, a + b);
    forall i | 0 <= i < |buf|
      ensures l[i] == r[i]
    {
      if off + |a| <= i < off + |a| + |b| {
        assert (a + b)[i - off] == b[i - off - |a|];
      } else if off <= i < off + |a| {
        assert (a + b)[i - off] == a[i - off];
      }
    }
  }

  /** The guard of the copy in `record`: the chunk fits strictly before the end. */
  predicate Fits(offset: int, numberRead: int, maxLength: int)
  {
    offset + numberRead < maxLength
  }

  /** When `System.arraycopy` throws in the copy branch. */
  predicate CopyThrows(offset: int, numberRead: int, sourceLength: int, maxLength: int)
  {
    Fits(offset, numberRead, maxLength) && (numberRead < 0 || offset < 0 || numberRead > sourceLength)
  }

  /**
   * The state after `record` read `consumed` of `chunks`, starting from
   * buffer `buf0` at offset `off0`: the offset grew by every chunk read;
   * every chunk before the last one fitted and was appended; while still
   * `going` the last one was appended too, otherwise it reached the end of
   * the buffer and was dropped.
   */
  ghost predicate Recorded(buf0: seq<Short>, off0: nat, chunks: seq<seq<Short>>, consumed: nat, going: bool,
                           buf: seq<Short>, offset: int)
  {
    && consumed <= |chunks| && |buf| == |buf0|
    && offset == off0 + |Flatten(chunks[..consumed])|
    && (forall j :: 0 < j < consumed ==> Fits(off0, |Flatten(chunks[..j])|, |buf0|))
    && (going ==>
          && off0 + |Flatten(chunks[..consumed])| <= |buf0|
          && (consumed == 0 || Fits(off0, |Flatten(chunks[..consumed])|, |buf0|))
          && buf == Overwrite(buf0, off0, Flatten(chunks[..consumed])))
    && (!going ==>
          && consumed > 0
          && !Fits(off0, |Flatten(chunks[..consumed])|, |buf0|)
          && off0 + |Flatten(chunks[..consumed - 1])| <= |buf0|
          && buf == Overwrite(buf0, off0, Flatten(chunks[..consumed - 1])))
  }

  /** One more chunk read by the loop of `record`, with the effect `RecordChunk` states. */
  lemma RecordedStep(buf0: seq<Short>, off0: nat, chunks: seq<seq<Short>>, consumed: nat, buf: seq<Short>, offset: int)
    requires consumed < |chunks|
    requires Recorded(buf0, off0, chunks, consumed, true, buf, offset)
    ensures var chunk, fits := chunks[consumed], Fits(offset, |chunks[consumed]|, |buf|);
      Recorded(buf0, off0, chunks, consumed + 1, fits,
               if fits then Overwrite(buf, offset, chunk) else buf, offset + |chunk|)
  {
    var chunk := chunks[consumed];
    FlattenStep(chunks, consumed);
    assert chunks[..consumed + 1][..consumed] == chunks[..consumed];
    if Fits(offset, |chunk|, |buf|) {
      OverwriteTwice(buf0, off0, Flatten(chunks[..consumed]), chunk);
    }
  }

  /** `record.read(audioBuffer, 0, n)` delivering `chunk`: its samples land at the front of `dest`. */
  method Fill(dest: array<Short>, chunk: seq<Short>)
    requires |chunk| <= dest.Length
    modifies dest
    ensures dest[..|chunk|] == chunk
    ensures dest[|chunk|..] == old(dest[|chunk|..])
  {
    forall k | 0 <= k < |chunk| {
      dest[k] := chunk[k];
    }
  }

  class SpeechActivity {
    var recordingBuffer: array<Short>
    var recordingOffset: int
    var shouldContinue: bool
    var shouldContinueRecognition: bool

    /** The recording buffer always holds `RECORDING_LENGTH` samples. */
    predicate Valid()
      reads this
    {
      recordingBuffer.Length == RECORDING_LENGTH
    }

    /** The field initialisers. */
    constructor ()
      ensures Valid() && fresh(recordingBuffer)
      ensures forall i :: 0 <= i < recordingBuffer.Length ==> recordingBuffer[i] == 0
      ensures recordingOffset == 0 && shouldContinue && shouldContinueRecognition
    {
      recordingBuffer := new Short[RECORDING_LENGTH](_ => 0);
      recordingOffset := 0;
      shouldContinue := true;
      shouldContinueRecognition := true;
    }

    /** `reset_all_attributes`, without the lock, thread and button updates. */
    method ResetAllAttributes()
      modifies this
      ensures Valid() && fresh(recordingBuffer)
      ensures forall i :: 0 <= i < recordingBuffer.Length ==> recordingBuffer[i] == 0
      ensures recordingOffset == 0 && shouldContinue && shouldContinueRecognition
    {
      recordingBuffer := new Short[RECORDING_LENGTH](_ => 0);
      recordingOffset := 0;
      shouldContinue := true;
      shouldContinueRecognition := true;
    }

    /**
     * One pass of the `while (shouldContinue)` loop in `record` after
     * `record.read` put `numberRead` samples into `audioBuffer`.
     * `thrown` is the exception `System.arraycopy` raises, which leaves
     * the fields as they were and ends the recording thread.
     */
    method RecordChunk(audioBuffer: array<Short>, numberRead: int) returns (thrown: bool)
      requires Valid()
      requires audioBuffer != recordingBuffer
      modifies this, recordingBuffer
      ensures Valid()
      ensures recordingBuffer == old(recordingBuffer) && shouldContinueRecognition == old(shouldContinueRecognition)
      ensures thrown <==> CopyThrows(old(recordingOffset), numberRead, audioBuffer.Length, recordingBuffer.Length)
      ensures thrown ==> recordingOffset == old(recordingOffset) && shouldContinue == old(shouldContinue)
                         && recordingBuffer[..] == old(recordingBuffer[..])
      ensures !thrown ==> recordingOffset == old(recordingOffset) + numberRead
      ensures !thrown ==> (shouldContinue <==> old(shouldContinue) && Fits(old(recordingOffset), numberRead, recordingBuffer.Length))
      ensures !thrown && Fits(old(recordingOffset), numberRead, recordingBuffer.Length) ==>
        recordingBuffer[..] == Overwrite(old(recordingBuffer[..]), old(recordingOffset), audioBuffer[..numberRead])
      ensures !Fits(old(recordingOffset), numberRead, recordingBuffer.Length) ==> recordingBuffer[..] == old(recordingBuffer[..])
    {
      var maxLength := recordingBuffer.Length;
      if recordingOffset + numberRead < maxLength {
        if numberRead < 0 || recordingOffset < 0 || numberRead > audioBuffer.Length {
          return true;
        }
        forall k | 0 <= k < numberRead {
          recordingBuffer[recordingOffset + k] := audioBuffer[k];
        }
      } else {
        shouldContinue := false;
      }
      recordingOffset := recordingOffset + numberRead;
      thrown := false;
    }

    /**
     * The recording loop of `record`, fed by `chunks`, the successive
     * results of `record.read`; it also stops when `chunks` runs out.
     * `consumed` is the number of chunks read.
     */
    method Record(audioBuffer: array<Short>, chunks: seq<seq<Short>>) returns (consumed: nat)
      requires Valid()
      requires audioBuffer != recordingBuffer
      requires 0 <= recordingOffset && (shouldContinue ==> recordingOffset <= recordingBuffer.Length)
      requires forall c :: c in chunks ==> |c| <= audioBuffer.Length
      modifies this, recordingBuffer, audioBuffer
      ensures Valid()
      ensures recordingBuffer == old(recordingBuffer) && shouldContinueRecognition == old(shouldContinueRecognition)
      ensures !old(shouldContinue) ==>
        (consumed == 0 && !shouldContinue && recordingOffset == old(recordingOffset) && recordingBuffer[..] == old(recordingBuffer[..]))
      ensures old(shouldContinue) ==>
        Recorded(old(recordingBuffer[..]), old(recordingOffset), chunks, consumed, shouldContinue, recordingBuffer[..], recordingOffset)
      ensures shouldContinue ==> consumed == |chunks|
    {
      consumed := 0;
      if !shouldContinue {
        return;
      }
      ghost var off0, buf0 := recordingOffset, recordingBuffer[..];
      assert chunks[..0] == [];
      while shouldContinue && consumed < |chunks|
        invariant recordingBuffer == old(recordingBuffer) && shouldContinueRecognition == old(shouldContinueRecognition)
        invariant Recorded(buf0, off0, chunks, consumed, shouldContinue, recordingBuffer[..], recordingOffset)
        decreases |chunks| - consumed
      {
        assert chunks[consumed] in chunks;
        RecordStep(audioBuffer, buf0, off0, chunks, consumed);
        consumed := consumed + 1;
      }
    }

    /** One pass of the loop of `record`: `record.read` delivers `chunks[consumed]`, then the append step. */
    method RecordStep(audioBuffer: array<Short>, ghost buf0: seq<Short>, ghost off0: nat, chunks: seq<seq<Short>>, consumed: nat)
      requires Valid()
      requires audioBuffer != recordingBuffer
      requires shouldContinue && consumed < |chunks| && |chunks[consumed]| <= audioBuffer.Length
      requires Recorded(buf0, off0, chunks, consumed, true, recordingBuffer[..], recordingOffset)
      modifies this, recordingBuffer, audioBuffer
      ensures Valid()
      ensures recordingBuffer == old(recordingBuffer) && shouldContinueRecognition == old(shouldContinueRecognition)
      ensures Recorded(buf0, off0, chunks, consumed + 1, shouldContinue, recordingBuffer[..], recordingOffset)
    {
      var chunk := chunks[consumed];
      Fill(audioBuffer, chunk);
      ghost var buf, off := recordingBuffer[..], recordingOffset;
      var thrown := RecordChunk(audioBuffer, |chunk|);
      RecordedStep(buf0, off0, chunks, consumed, buf, off);
    }

    /**
     * The copy and the scaling loop of `recognize`: a snapshot of the
     * recording buffer, then `INFERENCE_LENGTH` samples from `OFFSET_IDX`
     * on, divided by 32767.
     */
    method Recognize() returns (window: array<real>)
      requires Valid()
      ensures fresh(window)
      ensures window[..] == InferenceWindow(recordingBuffer[..])
    {
      var inputBuffer := new Short[RECORDING_LENGTH](_ => 0);
      var maxLength := recordingBuffer.Length;
      forall k | 0 <= k < maxLength {
        inputBuffer[k] := recordingBuffer[k];
      }
      window := new real[INFERENCE_LENGTH](_ => 0.0);
      var offsetIdx := 2 * 48000;
      for i := 0 to INFERENCE_LENGTH
        invariant inputBuffer[..] == recordingBuffer[..]
        invariant forall j :: 0 <= j < i ==> window[j] == Scale(inputBuffer[j + offsetIdx])
      {
        window[i] := Scale(inputBuffer[i + offsetIdx]);
      }
      assert forall j :: 0 <= j < INFERENCE_LENGTH ==> window[..][j] == InferenceWindow(recordingBuffer[..])[j];
    }
  }

  /** `sample / 32767.0`. */
  function Scale(x: Short): real
  {
    x as real / 32767.0
  }

  /** The scaled window `recognize` feeds to the MFCC. */
  function InferenceWindow(buf: seq<Short>): seq<real>
    requires |buf| == RECORDING_LENGTH
  {
    seq(INFERENCE_LENGTH, i requires 0 <= i < INFERENCE_LENGTH => Scale(buf[i + OFFSET_IDX]))
  }

  /**
   * The window is seconds two to four of the five-second recording, and
   * every value lies in [-32768/32767, 1]: slightly below -1 for the most
   * negative `short`.
   */
  lemma InferenceWindowIsSecondsTwoToFour(buf: seq<Short>)
    requires |buf| == RECORDING_LENGTH
    ensures var w := InferenceWindow(buf);
      && |w| == INFERENCE_LENGTH
      && (forall i :: 0 <= i < |w| ==> w[i] == Scale(buf[2 * SAMPLE_RATE..4 * SAMPLE_RATE][i]))
      && (forall i :: 0 <= i < |w| ==> -32768.0 / 32767.0 <= w[i] <= 1.0)
  {
    var w := InferenceWindow(buf);
    forall i | 0 <= i < |w|
      ensures -32768.0 / 32767.0 <= w[i] <= 1.0
    {
      var x := buf[i + OFFSET_IDX] as real;
      assert -32768.0 <= x <= 32767.0;
      assert w[i] == Scale(buf[i + OFFSET_IDX]);
    }
  }

  // ---------------------------------------------------------------------
  // create_padded_float_array
  // ---------------------------------------------------------------------

  const PADDED_LENGTH: int := 256 * 256

  /** Where element `i` of the MFCC output lands: row `i % 20`, column `i / 20`. */
  function Pos(i: nat): nat
  {
    256 * (i % 20) + i / 20
  }

  /**
   * The writes of `create_padded_float_array` replayed one by one: the
   * zero buffer after writing elements `0 .. |s| - 1`, or `None` where one
   * of them falls outside it (ArrayIndexOutOfBoundsException).
   */
  function PaddedWrites(s: seq<real>): (r: Option<seq<real>>)
    ensures r.Some? ==> |r.value| == PADDED_LENGTH
  {
    if |s| == 0 then Some(seq(PADDED_LENGTH, _ => 0.0))
    else match PaddedWrites(s[..|s| - 1])
      case None => None
      case Some(p) =>
        var k := Pos(|s| - 1);
        if k < PADDED_LENGTH then Some(p[k := s[|s| - 1]]) else None
  }

  lemma {:induction false} PaddedWritesNoneSticks(s: seq<real>, n: nat)
    requires n <= |s| && PaddedWrites(s[..n]).None?
    ensures PaddedWrites(s).None?
    decreases |s| - n
  {
    if n < |s| {
      assert s[..n + 1][..n] == s[..n];
      PaddedWritesNoneSticks(s, n + 1);
    } else {
      assert s[..n] == s;
    }
  }

  /**
   * `create_padded_float_array(mfcc_transform)`: `None` is the
   * ArrayIndexOutOfBoundsException of a write past the buffer.
   */
  method CreatePaddedFloatArray(mfccTransform: array<real>) returns (r: Option<array<real>>)
    ensures r.None? <==> PaddedWrites(mfccTransform[..]).None?
    ensures r.Some? ==> fresh(r.value) && r.value[..] == PaddedWrites(mfccTransform[..]).value
  {
    var padded := new real[256 * 256](_ => 0.0);
    assert padded[..] == seq(PADDED_LENGTH, _ => 0.0);
    var i := 0;
    assert mfccTransform[..i] == [];
    while i < mfccTransform.Length
      invariant 0 <= i <= mfccTransform.Length
      invariant PaddedWrites(mfccTransform[..i]) == Some(padded[..])
    {
      var columnMfcc := i / 20;
      var idxMfcc := i % 20;
      assert mfccTransform[..i + 1][..i] == mfccTransform[..i];
      if 256 * idxMfcc + columnMfcc >= padded.Length {
        PaddedWritesNoneSticks(mfccTransform[..], i + 1);
        return None;
      }
      padded[256 * idxMfcc + columnMfcc] := mfccTransform[20 * columnMfcc + idxMfcc];
      i := i + 1;
    }
    assert mfccTransform[..i] == mfccTransform[..];
    return Some(padded);
  }

  /** The cell at `k = 256 * row + column` holds element `20 * column + row` when there is one. */
  function PaddedSpec(s: seq<real>): (r: seq<real>)
    ensures |r| == PADDED_LENGTH
  {
    seq(PADDED_LENGTH, k requires 0 <= k < PADDED_LENGTH =>
      var row, column := k / 256, k % 256;
      if row < 20 && 20 * column + row < |s| then s[20 * column + row] else 0.0)
  }

  /** Positions of the first 5120 elements are in the buffer and pairwise distinct. */
  lemma PosInjective(i: nat, j: nat)
    requires i < 5120 && j < 5120
    ensures Pos(i) < PADDED_LENGTH
    ensures Pos(i) / 256 == i % 20 && Pos(i) % 256 == i / 20
    ensures Pos(i) == Pos(j) ==> i == j
  {
    assert i / 20 < 256 && j / 20 < 256;
  }

  /** The element written at cell `k` of the first 20 rows lands back on `k`. */
  lemma PosOfSource(k: nat)
    requires k < PADDED_LENGTH && k / 256 < 20
    ensures var j := 20 * (k % 256) + k / 256; j < 5120 && Pos(j) == k
  {
    var j := 20 * (k % 256) + k / 256;
    assert j % 20 == k / 256 && j / 20 == k % 256;
  }

  /** Past 5120 elements the layout overlaps: element 5120 lands on element 1's cell. */
  lemma PosCollidesAt5120()
    ensures Pos(5120) == Pos(1) < PADDED_LENGTH
  {
  }

  /**
   * Up to 5120 elements (20 rows of 256 columns) the writes stay in bounds
   * and the buffer is the transposed coefficients with zeros elsewhere.
   */
  lemma {:induction false} PaddedWritesMatchSpec(s: seq<real>)
    requires |s| <= 5120
    ensures PaddedWrites(s) == Some(PaddedSpec(s))
  {
    if |s| > 0 {
      var n := |s| - 1;
      var s' := s[..n];
      PaddedWritesMatchSpec(s');
      var k := Pos(n);
      PosInjective(n, n);
      var l, r := PaddedSpec(s')[k := s[n]], PaddedSpec(s);
      forall q | 0 <= q < PADDED_LENGTH
        ensures l[q] == r[q]
      {
        if q != k && q / 256 < 20 {
          PosOfSource(q);
          var j := 20 * (q % 256) + q / 256;
          assert j != n;
        }
      }
      assert l == r;
    } else {
      var z := seq(PADDED_LENGTH, _ => 0.0);
      assert PaddedWrites(s) == Some(z);
      assert forall q :: 0 <= q < PADDED_LENGTH ==> PaddedSpec(s)[q] == z[q];
      assert PaddedSpec(s) == z;
    }
  }

  // ---------------------------------------------------------------------
  // The scans over the class probabilities
  // ---------------------------------------------------------------------

  datatype JavaException = ArrayIndexOutOfBounds

  /** `v` is an element of `s` and no element exceeds it. */
  predicate IsMaximum(s: seq<real>, v: real)
  {
    v in s && forall j :: 0 <= j < |s| ==> s[j] <= v
  }

  /**
   * The index the scan of `getIndexOfLargest` settles on: a maximum,
   * preferring index 1, then 0, then the first maximum after them.
   */
  predicate ScanChoice(s: seq<real>, x: int)
  {
    && 0 <= x < |s| && 2 <= |s|
    && (forall j :: 0 <= j < |s| ==> s[j] <= s[x])
    && (x == 0 ==> s[1] < s[0])
    && (x >= 2 ==> forall j :: 0 <= j < x ==> s[j] < s[x])
  }

  /** The first index holding a maximum. */
  predicate FirstMaximum(s: seq<real>, x: int)
  {
    && 0 <= x < |s|
    && (forall j :: 0 <= j < |s| ==> s[j] <= s[x])
    && (forall j :: 0 <= j < x ==> s[j] < s[x])
  }

  /** `getIndexOfLargest(array)`, as written: the scan starts with `largest = 1`. */
  method GetIndexOfLargest(arr: array?<real>) returns (r: Result<int, JavaException>)
    ensures arr == null || arr.Length == 0 ==> r == Ok(-1)
    ensures arr != null && arr.Length == 1 ==> r == Err(ArrayIndexOutOfBounds)
    ensures arr != null && arr.Length >= 2 ==> r.Ok? && ScanChoice(arr[..], r.value)
  {
    if arr == null || arr.Length == 0 {
      return Ok(-1);
    }
    var largest := 1;
    for i := 0 to arr.Length
      invariant 0 <= largest && (i == 0 ==> largest == 1) && (i > 0 ==> largest < arr.Length)
      invariant largest < arr.Length ==> forall j :: 0 <= j < i ==> arr[j] <= arr[largest]
      invariant i > 0 ==> 2 <= arr.Length && largest < arr.Length && arr[1] <= arr[largest]
      invariant largest == 0 ==> i > 0 && arr[1] < arr[0]
      invariant largest >= 2 ==> largest < i && forall j :: 0 <= j < largest ==> arr[j] < arr[largest]
    {
      if largest >= arr.Length {
        return Err(ArrayIndexOutOfBounds);
      }
      if arr[i] > arr[largest] {
        largest := i;
      }
    }
    return Ok(largest);
  }

  /** `getIndexOfLargest` as its comment intends: the scan starts with `largest = 0`. */
  method GetIndexOfFirstLargest(arr: array?<real>) returns (r: int)
    ensures arr == null || arr.Length == 0 ==> r == -1
    ensures arr != null && arr.Length > 0 ==> FirstMaximum(arr[..], r)
  {
    if arr == null || arr.Length == 0 {
      return -1;
    }
    var largest := 0;
    for i := 1 to arr.Length
      invariant 0 <= largest < i
      invariant forall j :: 0 <= j < i ==> arr[j] <= arr[largest]
      invariant forall j :: 0 <= j < largest ==> arr[j] < arr[largest]
    {
      if arr[i] > arr[largest] {
        largest := i;
      }
    }
    return largest;
  }

  /** `getLargestFloat(array)`. */
  method GetLargestFloat(arr: array?<real>) returns (r: real)
    ensures arr == null || arr.Length == 0 ==> r == -1.0
    ensures arr != null && arr.Length > 0 ==> IsMaximum(arr[..], r)
  {
    if arr == null || arr.Length == 0 {
      return -1.0;
    }
    var largest := arr[0];
    for i := 1 to arr.Length
      invariant largest in arr[..i]
      invariant forall j :: 0 <= j < i ==> arr[j] <= largest
    {
      if arr[i] > largest {
        largest := arr[i];
      }
    }
    assert arr[..arr.Length] == arr[..];
    return largest;
  }

  /** The reported probability is the value at the reported label index. */
  lemma LargestIsAtChosenIndex(s: seq<real>, x: int, v: real)
    requires ScanChoice(s, x) && IsMaximum(s, v)
    ensures s[x] == v
  {
    var m :| 0 <= m < |s| && s[m] == v;
    assert s[m] <= s[x];
  }

  /** The scan's choice is one index, determined by the array. */
  lemma ScanChoiceUnique(s: seq<real>, x: int, y: int)
    requires ScanChoice(s, x) && ScanChoice(s, y)
    ensures x == y
  {
    assert s[x] <= s[y] && s[y] <= s[x];
  }

  /**
   * Where a maximum sits at both index 0 and index 1, the scan as written
   * reports 1, while the first maximum is 0.
   */
  lemma TieAtStartReportsOne(s: seq<real>, x: int)
    requires ScanChoice(s, x) && s[0] == s[1] && IsMaximum(s, s[0])
    ensures x == 1 && FirstMaximum(s, 0)
  {
  }
}
